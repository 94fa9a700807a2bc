/** What a `foreach` in the next script of a `for` does to the expanded unit:
    the region its pass leaves behind is closed in place of the next script's
    own, so a `continue` raised later in the body passes the loop by. */
module Rerouting {
  import opened Options
  import opened Opcodes
  import opened Machine
  import opened Passes
  import opened Unfusing
  import opened Syntax
  import opened Codegen
  import opened Fitting
  import opened Instructions
  import opened Walks
  import opened Discipline
  import opened Nested

  /** The eleventh request fails with `late`, the twelfth leaves the program;
      every list has one pass. */
  ghost predicate Clock(h: Host, world: int -> World, late: Fault) {
    && (forall i, q :: h.ask(world(i), q) == (world(i + 1), Tick(i, late)))
    && (forall k, lists :: h.iters(k, lists) == 1)
  }

  function Tick(i: int,
          late: Fault): Reply { if i == 10 then Fault(late) else if i == 11 then Fault(Quit(0)) else Ok(Num(1)) }

  lemma Ticks(h: Host, world: int -> World, late: Fault, i: int, q: Request)
    requires Clock(h, world, late)
    ensures h.ask(world(i), q) == (world(i + 1), Tick(i, late))
  {
  }

  // ── places and states ──

  function ForEntry(b: List<Region>): Entry { Entry(Depth(b), 0, 0) }

  function ForFrame(brk: int, b: List<Region>): LoopFrame { LoopFrame(12, Spot(brk), ForEntry(b)) }

  function EachFrame(next: int, end: int, b: List<Region>): LoopFrame {
    LoopFrame(Spot(next), Spot(end), Entry(Depth(b), 0, 1))
  }

  function OnePass(): ForeachFrame { ForeachFrame([Num(1)], 0, 1, None, false, false) }

  /** Inside the body, about to call. */
  function InBody(c: Core, w: World): Core { c.(w := w, site := 2, bodies := Cons(Region.Body(c.site), c.bodies)) }

  /** At the end of the only pass of the next script's `foreach`. */
  function InPass(c: Core, w: World): Core {
    c.(w := w, site := 1, bodies := Cons(Region.Body(1), c.bodies), foreaches := Cons(OnePass(), c.foreaches))
  }

  function Calling(f: nat): OpCode { Call(false, f, 0) }

  function Opening(next: int, end: int): OpCode { Loop(ForeachStart(0, Spot(next), Spot(end))) }

  /** The code in front of the next script. */
  ghost predicate Shared(u: Code, f: nat, brk: int) {
    && u.infos == Shapes() && |u.ops| > 12 && brk >= 0
    && u.ops[0] == BeginCmd(0) && u.ops[1] == Mark(ExprMark) && u.ops[2] == Push(Empty) && u.ops[3] == SubEnd
    && u.ops[4] == Pop && u.ops[5] == Loop(LoopEnter(12, brk)) && u.ops[6] == Push(Const(0)) && u.ops[7] == EvalExpr
    && u.ops[8] == JumpIf(false, brk) && u.ops[9] == BeginCmd(2) && u.ops[10] == Calling(f) && u.ops[11] == Pop
  }

  /** The next script from its command to the region of its pass. */
  ghost predicate NextScript(u: Code, y: Loc, p: int, next: int, end: int) {
    && u.infos == Shapes() && 0 <= p && p + 4 <= |u.ops| && u.ops[p] == BeginCmd(1) && u.ops[p + 1] == Load(y)
    && u.ops[p + 2] == Opening(next, end) && u.ops[p + 3] == Mark(BodyMark)
  }

  /** And from the end of its passes on. */
  ghost predicate NextEnd(u: Code, p: int) {
    0 <= p && p + 3 <= |u.ops| && u.ops[p] == Loop(ForeachEnd) && u.ops[p + 1] == Pop && u.ops[p + 2] == Jump(6)
  }

  // ── what both units do ──

  /** Into the loop. */
  lemma Enters(h: Host, u: Code, f: nat, brk: int, world: int -> World, late: Fault, c: Core)
    requires Shared(u, f, brk) && Clock(h, world, late) && c.w == world(0) && c.stack.Nil?
    ensures Steps(h, u, Now(0, State(c, Nil)), 6)
         == Now(6, State(c.(w := world(1), site := 0), Cons(ForFrame(brk, c.bodies), Nil)))
  {
    hide Exec, Steps, Clock;
    var s, c1 := Running(0, State(c, Nil)), c.(w := world(1), site := 0);
    var inner := Opened(c1, Region.Expr(0));
    var full, last := Pushed(inner, h.lit(Empty)), Pushed(c1, h.lit(Empty));
    NoStep(h, u, s);
    Ticks(h, world, late, 0, Machine.Begin(0));
    BeginRuns(h, u.infos, 0, State(c, Nil));
    Takes(h, u, s, 0, 0, BeginCmd(0), State(c, Nil), Running(1, State(c1, Nil)));
    MarkRuns(h, u.infos, ExprMark, State(c1, Nil));
    Takes(h, u, s, 1, 1, Mark(ExprMark), State(c1, Nil), Running(2, State(inner, Nil)));
    PushRuns(h, u.infos, Empty, State(inner, Nil));
    Takes(h, u, s, 2, 2, Push(Empty), State(inner, Nil), Running(3, State(full, Nil)));
    SubEndRuns(h, u.infos, State(full, Nil));
    Takes(h, u, s, 3, 3, SubEnd, State(full, Nil), Running(4, State(last, Nil)));
    PopRuns(h, u.infos, State(last, Nil));
    Takes(h, u, s, 4, 4, Pop, State(last, Nil), Running(5, State(c1, Nil)));
    EnterRuns(h, u.infos, 12, brk, State(c1, Nil));
    Takes(h, u, s, 5, 5, Loop(LoopEnter(12, brk)), State(c1, Nil),
        Running(6, State(c1, Cons(ForFrame(brk, c.bodies), Nil))));
  }

  /** The condition is asked for, holds, and the body begins. */
  lemma BodyBegins(h: Host, u: Code, f: nat, brk: int, world: int -> World, late: Fault, i: int, c: Core,
          loops: List<LoopFrame>, s: Machine.Run, n: int)
    requires Shared(u, f, brk) && Clock(h, world, late) && c.w == world(i) && i < 9 && n >= 0
    requires Steps(h, u, s, n) == Now(6, State(c, loops))
    ensures Steps(h, u, s, n + 4) == Now(10, State(InBody(c, world(i + 2)), loops))
  {
    hide Exec, Steps, Clock;
    var lit, asked := LitVal(h, Const(0)), Pushed(c.(w := world(i + 1)), Num(1));
    var inner := Opened(c.(w := world(i + 1)), Region.Body(c.site));
    PushRuns(h, u.infos, Const(0), State(c, loops));
    Takes(h, u, s, n, 6, Push(Const(0)), State(c, loops), Running(7, State(Pushed(c, lit), loops)));
    Ticks(h, world, late, i, RunExpr(lit));
    EvalExprRuns(h, u.infos, State(Pushed(c, lit), loops));
    Takes(h, u, s, n + 1, 7, EvalExpr, State(Pushed(c, lit), loops), Running(8, State(asked, loops)));
    JumpIfRuns(h, u.infos, false, brk, State(asked, loops));
    Takes(h, u, s, n + 2, 8, JumpIf(false, brk), State(asked, loops), Running(9, State(inner, loops)));
    Ticks(h, world, late, i + 1, Machine.Begin(2));
    BeginRuns(h, u.infos, 2, State(inner, loops));
    Takes(h, u, s, n + 3, 9, BeginCmd(2), State(inner, loops), Running(10, State(InBody(c, world(i + 2)), loops)));
  }

  /** The first pass, to its end. */
  lemma FirstPass(h: Host, u: Code, f: nat, brk: int, world: int -> World, late: Fault, c: Core)
    requires Shared(u, f, brk) && Clock(h, world, late) && c.w == world(0) && c.stack.Nil?
    ensures Steps(h, u, Now(0, State(c, Nil)), 12)
         == Now(12, State(InBody(c.(site := 0), world(4)), Cons(ForFrame(brk, c.bodies), Nil)))
  {
    hide Exec, Steps, Clock;
    var s, loops := Running(0, State(c, Nil)), Cons(ForFrame(brk, c.bodies), Nil);
    var c2, c3 := InBody(c.(site := 0), world(3)), InBody(c.(site := 0), world(4));
    Enters(h, u, f, brk, world, late, c);
    BodyBegins(h, u, f, brk, world, late, 1, c.(w := world(1), site := 0), loops, s, 6);
    NoArgs(c2.stack);
    Ticks(h, world, late, 3, Invoke(false, []));
    CallRuns(h, u.infos, false, f, 0, State(c2, loops));
    Takes(h, u, s, 10, 10, Calling(f), State(c2, loops), Running(11, State(Pushed(c3, Num(1)), loops)));
    PopRuns(h, u.infos, State(Pushed(c3, Num(1)), loops));
    Takes(h, u, s, 11, 11, Pop, State(Pushed(c3, Num(1)), loops), Running(12, State(c3, loops)));
  }

  lemma NoArgs(st: List<Val>)
    ensures TakeArgs(st, 0) == ([], st)
  {
  }

  lemma OneArg(st: List<Val>, v: Val)
    ensures TakeArgs(Cons(v, st), 1) == ([v], st)
  {
    assert TakeArgs(st, 0) == ([], st);
    assert [] + [v] == [v];
  }

  /** The next script into the only pass of its `foreach`. */
  lemma Starts(h: Host, u: Code, y: Loc, p: nat, next: int, end: int, world: int -> World, late: Fault, c: Core,
          loops: List<LoopFrame>, s: Machine.Run, n: nat)
    requires NextScript(u, y, p, next, end) && Clock(h, world, late) && c.w == world(4) && c.stack.Nil?
    requires Steps(h, u, s, n) == Running(p, State(c, loops))
    ensures Steps(h, u, s, n + 4)
         == Now(p + 4, State(InPass(c, world(8)), Cons(EachFrame(next, end, c.bodies), loops)))
  {
    hide Exec, Steps, Clock;
    var c1, c2 := c.(w := world(5), site := 1), Pushed(c.(w := world(6), site := 1), Num(1));
    var d := State(c.(w := world(8), site := 1, foreaches := Cons(OnePass(), c.foreaches)),
        Cons(EachFrame(next, end, c.bodies), loops));
    Ticks(h, world, late, 4, Machine.Begin(1));
    BeginRuns(h, u.infos, 1, State(c, loops));
    Takes(h, u, s, n, p, BeginCmd(1), State(c, loops), Running(p + 1, State(c1, loops)));
    Ticks(h, world, late, 5, Request.Read(y));
    LoadRuns(h, u.infos, y, State(c1, loops));
    Takes(h, u, s, n + 1, p + 1, Load(y), State(c1, loops), Running(p + 2, State(c2, loops)));
    Opens(h, u.infos, next, end, world, late, c.(w := world(6), site := 1), loops);
    Takes(h, u, s, n + 2, p + 2, Opening(next, end), State(c2, loops), Running(p + 3, d));
    MarkRuns(h, u.infos, BodyMark, d);
    Takes(h, u, s, n + 3, p + 3, Mark(BodyMark), d, Running(p + 4, State(InPass(c, world(8)), d.loops)));
  }

  lemma Opens(h: Host, infos: seq<ForeachInfo>, next: int, end: int, world: int -> World, late: Fault, c: Core,
          loops: List<LoopFrame>)
    requires Clock(h, world, late) && c.w == world(6) && c.stack.Nil? && infos == Shapes() && c.site == 1
    ensures Exec(h, infos, Opening(next, end), State(Pushed(c, Num(1)), loops))
         == Fall(State(c.(w := world(8), foreaches := Cons(OnePass(), c.foreaches)),
            Cons(EachFrame(next, end, c.bodies), loops)))
  {
    OneArg(Nil, Num(1));
    Ticks(h, world, late, 6, OpenLists(0, [Num(1)]));
    Ticks(h, world, late, 7, Machine.Bind(0, [Num(1)], 0));
  }

  /** The pass is the last: the iteration ends and the next script with it. */
  lemma Finishes(h: Host, u: Code, p: nat, c: Core, frame: LoopFrame, loops: List<LoopFrame>, s: Machine.Run, n: nat)
    requires NextEnd(u, p)
    requires Steps(h, u, s, n) == Running(p, State(c.(foreaches := Cons(OnePass(), c.foreaches)), Cons(frame, loops)))
    ensures Steps(h, u, s, n + 3) == Now(6, State(Closed(c), loops))
  {
    hide Exec, Steps;
    var d := State(c.(foreaches := Cons(OnePass(), c.foreaches)), Cons(frame, loops));
    PassesEnd(h, u.infos, c, frame, loops);
    Takes(h, u, s, n, p, Loop(ForeachEnd), d, Running(p + 1, State(Pushed(c, h.lit(Empty)), loops)));
    PopRuns(h, u.infos, State(Pushed(c, h.lit(Empty)), loops));
    Takes(h, u, s, n + 1, p + 1, Pop, State(Pushed(c, h.lit(Empty)), loops), Running(p + 2, State(c, loops)));
    JumpRuns(h, u.infos, 6, State(c, loops));
    Takes(h, u, s, n + 2, p + 2, Jump(6), State(c, loops), Running(6, State(Closed(c), loops)));
  }

  lemma PassesEnd(h: Host, infos: seq<ForeachInfo>, c: Core, frame: LoopFrame, loops: List<LoopFrame>)
    ensures Exec(h, infos, Loop(ForeachEnd), State(c.(foreaches := Cons(OnePass(), c.foreaches)), Cons(frame, loops)))
         == Fall(State(Pushed(c, h.lit(Empty)), loops))
  {
    hide ExecCore;
  }

  /** The call fails. */
  lemma Calls(h: Host, infos: seq<ForeachInfo>, f: nat, world: int -> World, late: Fault, c: Core,
          loops: List<LoopFrame>)
    requires Clock(h, world, late) && c.w == world(10) && c.stack.Nil?
    ensures Exec(h, infos, Calling(f), State(c, loops)) == Raise(late, State(c.(w := world(11)), loops))
  {
    hide Clock, Exec;
    NoArgs(c.stack);
    Ticks(h, world, late, 10, Invoke(false, []));
    CallRuns(h, infos, false, f, 0, State(c, loops));
  }

  lemma Cut(b: List<Region>, r: Region)
    ensures Truncate(Cons(r, b), Depth(b)) == b
  {
  }

  // ── the optimised unit ──

  /** At the second call of the optimised unit. */
  function AtCall(c: Core, w: World): Core { InBody(c.(site := 0), w) }

  function Closing(): OpCode { Super(ForeachNextClose(0, 17)) }

  lemma FusedShared(y: Loc, f: nat)
    ensures Shared(Code(FusedOps(y, f), Shapes()), f, 21)
  {
    hide FusedOps;
    FusedAt(y, f);
  }

  lemma FusedNext(y: Loc, f: nat)
    ensures NextScript(Code(FusedOps(y, f), Shapes()), y, 13, 17, 18) && NextEnd(Code(FusedOps(y, f), Shapes()), 18)
  {
    hide FusedOps;
    FusedAt(y, f);
  }

  lemma FusedLoop(y: Loc, f: nat)
    ensures var ops := FusedOps(y, f);
      && |ops| == 23 && OpAt(ops, 10) == Calling(f) && OpAt(ops, 12) == Super(SwapToNextMark)
      && OpAt(ops, 17) == Closing()
  {
    hide FusedOps;
    FusedAt(y, f);
  }

  lemma Swapped(h: Host, infos: seq<ForeachInfo>, c: Core, loops: List<LoopFrame>, b: List<Region>)
    requires Truncate(c.bodies, Depth(b)) == b && Innermost(loops) == Some(ForEntry(b))
    ensures Exec(h, infos, Super(SwapToNextMark), State(c, loops))
         == Fall(State(c.(site := 0, bodies := Cons(Region.Next(0), b)), loops))
  {
  }

  lemma LastPass(h: Host, infos: seq<ForeachInfo>, c: Core, loops: List<LoopFrame>, w: World)
    ensures var pass := Cons(EachFrame(17, 18, c.bodies), loops);
      Exec(h, infos, Closing(), State(InPass(c, w), pass))
      == Fall(State(c.(w := w, site := 1, foreaches := Cons(OnePass(), c.foreaches)), pass))
  {
    Cut(c.bodies, Region.Body(1));
  }

  /** Up to its second call. */
  lemma FusedCalls(h: Host, y: Loc, f: nat, world: int -> World, late: Fault, start: Machine.Run)
    requires Clock(h, world, late) && Begun(start) && WorldOf(start) == world(0)
    ensures var c := StateOf(start).core;
      Steps(h, Code(FusedOps(y, f), Shapes()), start, 25)
      == Now(10, State(AtCall(c, world(10)), Cons(ForFrame(21, c.bodies), Nil)))
  {
    hide Exec, Steps, Clock, FusedOps, Shared, NextScript, NextEnd;
    var u, c := Code(FusedOps(y, f), Shapes()), start.d.core;
    var loops, c2 := Cons(ForFrame(21, c.bodies), Nil), InBody(c.(site := 0), world(4));
    var c3 := c2.(site := 0, bodies := Cons(Region.Next(0), c.bodies));
    var pass := Cons(EachFrame(17, 18, c3.bodies), loops);
    FusedShared(y, f);
    FusedNext(y, f);
    FusedLoop(y, f);
    FirstPass(h, u, f, 21, world, late, c);
    Cut(c.bodies, Region.Body(0));
    Swapped(h, u.infos, c2, loops, c.bodies);
    Takes(h, u, start, 12, 12, Super(SwapToNextMark), State(c2, loops), Running(13, State(c3, loops)));
    Starts(h, u, y, 13, 17, 18, world, late, c3, loops, start, 13);
    LastPass(h, u.infos, c3, loops, world(8));
    var c4 := c3.(w := world(8), site := 1);
    Takes(h, u, start, 17, 17, Closing(), State(InPass(c3, world(8)), pass),
        Running(18, State(c4.(foreaches := Cons(OnePass(), c.foreaches)), pass)));
    Finishes(h, u, 18, c4, EachFrame(17, 18, c3.bodies), loops, start, 18);
    assert Closed(c4) == c.(w := world(8), site := 0);
    BodyBegins(h, u, f, 21, world, late, 8, c.(w := world(8), site := 0), loops, start, 21);
  }

  /** With no next script open, the `continue` is the loop's own. */
  lemma Continues(h: Host, infos: seq<ForeachInfo>, f: nat, world: int -> World, late: Fault, c: Core, brk: int)
    requires late == Cnt(1) && Clock(h, world, late) && c.stack.Nil?
    ensures var loops := Cons(ForFrame(brk, c.bodies), Nil);
      After(10, Exec(h, infos, Calling(f), State(AtCall(c, world(10)), loops)))
      == Now(12, State(c.(w := world(11), site := 0), loops))
  {
    hide Exec, Clock;
    Calls(h, infos, f, world, late, AtCall(c, world(10)), Cons(ForFrame(brk, c.bodies), Nil));
    Cut(c.bodies, Region.Body(0));
    assert !NextAbove(c.bodies, Depth(c.bodies)) && !NextAbove(AtCall(c, world(10)).bodies, Depth(c.bodies));
  }

  /** It opens the next script once more, which leaves the program. */
  lemma FusedRuns(h: Host, y: Loc, f: nat, world: int -> World, late: Fault, start: Machine.Run)
    requires late == Cnt(1) && Clock(h, world, late) && Begun(start) && WorldOf(start) == world(0)
    ensures Ends(h, Code(FusedOps(y, f), Shapes()), start, Failed(Quit(0), world(12), None))
  {
    hide Exec, Steps, Clock, FusedOps, Shared, NextEnd;
    var u, c := Code(FusedOps(y, f), Shapes()), start.d.core;
    var loops, c1 := Cons(ForFrame(21, c.bodies), Nil), c.(w := world(11), site := 0);
    var c2 := c1.(bodies := Cons(Region.Next(0), c.bodies));
    FusedNext(y, f);
    FusedLoop(y, f);
    FusedCalls(h, y, f, world, late, start);
    Continues(h, u.infos, f, world, late, c, 21);
    Takes(h, u, start, 25, 10, Calling(f), State(AtCall(c, world(10)), loops), Running(12, State(c1, loops)));
    TruncateSame(c.bodies);
    Swapped(h, u.infos, c1, loops, c.bodies);
    Takes(h, u, start, 26, 12, Super(SwapToNextMark), State(c1, loops), Running(13, State(c2, loops)));
    Ticks(h, world, late, 11, Machine.Begin(1));
    BeginRuns(h, u.infos, 1, State(c2, loops));
    Takes(h, u, start, 27, 13, BeginCmd(1), State(c2, loops), Halted(Failed(Quit(0), world(12), None)));
  }

  // ── the expanded unit ──

  /** In the next script that opens over the body's region. */
  function Over(c: Core, w: World): Core { Opened(InBody(c.(site := 0), w), Region.Next(2)) }

  /** At the second call of the expanded unit. */
  function AtLateCall(c: Core, w: World): Core { InBody(Over(c, w).(site := 1), w) }

  lemma PlainShared(y: Loc, f: nat)
    ensures Shared(Code(PlainOps(y, f), Shapes()), f, 23)
  {
    hide PlainOps;
    PlainAt(y, f);
  }

  lemma PlainNext(y: Loc, f: nat)
    ensures NextScript(Code(PlainOps(y, f), Shapes()), y, 14, 18, 20) && NextEnd(Code(PlainOps(y, f), Shapes()), 20)
  {
    hide PlainOps;
    PlainAt(y, f);
  }

  lemma PlainLoop(y: Loc, f: nat)
    ensures var ops := PlainOps(y, f);
      && |ops| == 25 && OpAt(ops, 10) == Calling(f) && OpAt(ops, 12) == Nop && OpAt(ops, 13) == Mark(NextMark)
      && OpAt(ops, 18) == Nop && OpAt(ops, 19) == Advancing()
  {
    hide PlainOps;
    PlainAt(y, f);
  }

  function Advancing(): OpCode { Loop(ForeachNext(0, 18)) }

  /** Up to its second call: the jump back closes the region of the pass, not
      the next script's. */
  lemma PlainCalls(h: Host, y: Loc, f: nat, world: int -> World, late: Fault, start: Machine.Run)
    requires Clock(h, world, late) && Begun(start) && WorldOf(start) == world(0)
    ensures var c := StateOf(start).core;
      Steps(h, Code(PlainOps(y, f), Shapes()), start, 27)
      == Now(10, State(AtLateCall(c, world(10)), Cons(ForFrame(23, c.bodies), Nil)))
  {
    hide Exec, Steps, Clock, PlainOps, Shared, NextScript, NextEnd;
    var u, c := Code(PlainOps(y, f), Shapes()), start.d.core;
    var loops, c1 := Cons(ForFrame(23, c.bodies), Nil), Over(c, world(4));
    PlainShared(y, f);
    PlainNext(y, f);
    PlainLoop(y, f);
    FirstPass(h, u, f, 23, world, late, c);
    var d := State(InBody(c.(site := 0), world(4)), loops);
    NopFalls(h, u.infos, d);
    Takes(h, u, start, 12, 12, Nop, d, Running(13, d));
    MarkRuns(h, u.infos, NextMark, d);
    Takes(h, u, start, 13, 13, Mark(NextMark), d, Running(14, State(c1, loops)));
    Starts(h, u, y, 14, 18, 20, world, late, c1, loops, start, 14);
    var e := State(InPass(c1, world(8)), Cons(EachFrame(18, 20, c1.bodies), loops));
    NopFalls(h, u.infos, e);
    Takes(h, u, start, 18, 18, Nop, e, Running(19, e));
    AdvanceRuns(h, u.infos, 0, 18, e);
    Takes(h, u, start, 19, 19, Advancing(), e, Running(20, e));
    var c2 := c1.(w := world(8), site := 1, bodies := Cons(Region.Body(1), c1.bodies));
    Finishes(h, u, 20, c2, EachFrame(18, 20, c1.bodies), loops, start, 20);
    BodyBegins(h, u, f, 23, world, late, 8, Closed(c2), loops, start, 23);
  }

  /** Under the next script's region the `continue` passes the loop by. */
  lemma PlainRuns(h: Host, y: Loc, f: nat, world: int -> World, late: Fault, start: Machine.Run)
    requires late == Cnt(1) && Clock(h, world, late) && Begun(start) && WorldOf(start) == world(0)
    ensures Ends(h, Code(PlainOps(y, f), Shapes()), start, Failed(Cnt(1), world(11), None))
  {
    hide Exec, Steps, Clock, PlainOps, NextAbove, Shared, NextScript, NextEnd;
    var u, c := Code(PlainOps(y, f), Shapes()), start.d.core;
    var loops, at := Cons(ForFrame(23, c.bodies), Nil), AtLateCall(c, world(10));
    PlainLoop(y, f);
    PlainCalls(h, y, f, world, late, start);
    Crossed(c.bodies);
    Calls(h, u.infos, f, world, late, at, loops);
    Takes(h, u, start, 27, 10, Calling(f), State(at, loops), Halted(Failed(Cnt(1), world(11), None)));
  }

  lemma Crossed(b: List<Region>)
    ensures NextAbove(Cons(Region.Body(1), Cons(Region.Next(2), Cons(Region.Body(0), b))), Depth(b))
  {
    assert Depth(Cons(Region.Body(0), b)) == Depth(b) + 1;
    assert Depth(Cons(Region.Next(2), Cons(Region.Body(0), b))) == Depth(b) + 2;
    assert NextAbove(Cons(Region.Next(2), Cons(Region.Body(0), b)), Depth(b));
  }

  // ── both ──

  lemma OneShaped(c: Cmd)
    ensures ShapedScript(Shapes(), Then(c, Done)) == ShapedForm(Shapes(), c.form)
  {
    hide ShapedForm;
    assert ShapedScript(Shapes(), Done);
  }

  lemma OnePlanned(p: Plan, c: Cmd, next: bool, ctx: List<bool>)
    ensures PlanScript(p, Then(c, Done), next, ctx) == PlanForm(p, c.form, next, ctx)
  {
    hide PlanForm;
    assert PlanScript(p, Done, next, ctx);
  }

  lemma NestShaped(y: Loc, f: nat)
    ensures ShapedScript(Shapes(), Nest(y, f))
  {
    hide ShapedScript;
    EachShaped(y);
    OneShaped(Cmd(1, Each(y)));
    CallShaped(f);
    OneShaped(Cmd(2, Form.Run(false, f, NoWords)));
    NothingShaped();
    OneShaped(Cmd(0, Nesting(y, f)));
    assert ShapedForm(Shapes(), Nesting(y, f));
  }

  lemma NothingShaped()
    ensures ShapedScript(Shapes(), Done) && ShapedWords(Shapes(), NoWords)
  {
  }

  lemma CallShaped(f: nat)
    ensures ShapedForm(Shapes(), Form.Run(false, f, NoWords))
  {
    hide ShapedWords;
    NothingShaped();
  }

  lemma EachShaped(y: Loc)
    ensures ShapedForm(Shapes(), Each(y))
  {
    hide ShapedScript;
    NothingShaped();
    OneWord(y);
    assert ShapedWord(Shapes(), Var(y));
  }

  lemma OneWord(y: Loc)
    ensures Count(More(Var(y), NoWords)) == 1
    ensures ShapedWords(Shapes(), More(Var(y), NoWords))
    ensures forall p, next, ctx :: PlanWords(p, More(Var(y), NoWords), next, ctx)
  {
    assert Count(NoWords) == 0;
    NothingShaped();
    forall p, next, ctx ensures PlanWords(p, More(Var(y), NoWords), next, ctx)
        { assert PlanWords(p, NoWords, next, ctx); }
  }

  lemma EachPlanned(y: Loc)
    ensures PlanForm(AIMED, Each(y), true, Cons(true, Nil)) && !PlanForm(FLAT, Each(y), true, Cons(true, Nil))
  {
    hide PlanWords;
    OneWord(y);
    assert PlanScript(AIMED, Done, true, Cons(false, Cons(true, Nil)));
    assert !NoneIn(Cons(true, Nil));
  }

  lemma CallPlanned(p: Plan, f: nat, ctx: List<bool>)
    ensures PlanForm(p, Form.Run(false, f, NoWords), false, ctx)
  {
    assert PlanWords(p, NoWords, false, ctx);
  }

  lemma NestAimed(y: Loc, f: nat)
    ensures AimedScript(Nest(y, f)) && !FlatScript(Nest(y, f))
  {
    hide PlanScript, Each;
    EachPlanned(y);
    OnePlanned(AIMED, Cmd(1, Each(y)), true, Cons(true, Nil));
    OnePlanned(FLAT, Cmd(1, Each(y)), true, Cons(true, Nil));
    CallPlanned(AIMED, f, Cons(false, Nil));
    OnePlanned(AIMED, Cmd(2, Form.Run(false, f, NoWords)), false, Cons(false, Nil));
    OnePlanned(AIMED, Cmd(0, Nesting(y, f)), false, Nil);
    OnePlanned(FLAT, Cmd(0, Nesting(y, f)), false, Nil);
    NothingPlanned();
    assert PlanForm(AIMED, Nesting(y, f), false, Nil) && !PlanForm(FLAT, Nesting(y, f), false, Nil);
  }

  lemma NothingPlanned()
    ensures PlanScript(AIMED, Done, false, Nil)
  {
  }

  /** A compiled unit and its expansion may end differently, trails aside: the
      script is aimed, only not flat. */
  lemma Rerouted(h: Host, world: int -> World, late: Fault, y: Loc, f: nat, start: Machine.Run)
    requires late == Cnt(1) && Clock(h, world, late) && Begun(start) && WorldOf(start) == world(0)
    ensures ShapedScript(Shapes(), Nest(y, f)) && AimedScript(Nest(y, f)) && !FlatScript(Nest(y, f))
    ensures var u := UnitOf(Nest(y, f), Shapes());
      && Ends(h, u.(ops := Peephole(u.ops)), start, Failed(Quit(0), world(12), None))
      && Ends(h, u.(ops := Unfused(Peephole(u.ops))), start, Failed(Cnt(1), world(11), None))
  {
    hide Ends, Clock, Peephole, Unfused, UnitOf, ShapedScript, PlanScript;
    NestShaped(y, f);
    NestAimed(y, f);
    DraftIs(y, f);
    NestShapes(y, f);
    OptimisedIs(y, f);
    ExpandedIs(y, f);
    FusedRuns(h, y, f, world, late, start);
    PlainRuns(h, y, f, world, late, start);
  }

  /** An error raised there shows the regions left behind as well. */
  lemma RegionLeftBehind(h: Host, world: int -> World, late: Fault, y: Loc, f: nat, start: Machine.Run)
    requires late.Err? && Clock(h, world, late) && Begun(start) && WorldOf(start) == world(0)
    ensures var u, b := UnitOf(Nest(y, f), Shapes()), Cons(Region.Body(0), StateOf(start).core.bodies);
      && Ends(h, u.(ops := Peephole(u.ops)), start, Failed(late, world(11), Some((b, 2))))
      && Ends(h, u.(ops := Unfused(Peephole(u.ops))), start,
          Failed(late, world(11), Some((Cons(Region.Body(1), Cons(Region.Next(2), b)), 2))))
  {
    hide Steps, Exec, Clock, Ends, Peephole, Unfused, UnitOf, FusedOps, PlainOps;
    DraftIs(y, f);
    NestShapes(y, f);
    OptimisedIs(y, f);
    ExpandedIs(y, f);
    FusedCalls(h, y, f, world, late, start);
    PlainCalls(h, y, f, world, late, start);
    FusedLoop(y, f);
    PlainLoop(y, f);
    var c := StateOf(start).core;
    Objects(h, Code(FusedOps(y, f), Shapes()), f, world, late, start, 25, AtCall(c, world(10)),
        Cons(ForFrame(21, c.bodies), Nil));
    Objects(h, Code(PlainOps(y, f), Shapes()), f, world, late, start, 27, AtLateCall(c, world(10)),
        Cons(ForFrame(23, c.bodies), Nil));
  }

  lemma Objects(h: Host, u: Code, f: nat, world: int -> World, late: Fault, start: Machine.Run, n: nat, c: Core,
          loops: List<LoopFrame>)
    requires late.Err? && Clock(h, world, late) && c.w == world(10) && c.stack.Nil? && |u.ops| > 10
    requires OpAt(u.ops, 10) == Calling(f) && Steps(h, u, start, n) == Now(10, State(c, loops))
    ensures Ends(h, u, start, Failed(late, world(11), Some((c.bodies, c.site))))
  {
    hide Steps, Exec, Clock;
    Calls(h, u.infos, f, world, late, c, loops);
    Takes(h, u, start, n, 10, Calling(f), State(c, loops), Halted(Failed(late, world(11), Some((c.bodies, c.site)))));
  }

  lemma NestShapes(y: Loc, f: nat)
    ensures UnitOf(Nest(y, f), Shapes()).infos == Shapes()
  {
  }
}

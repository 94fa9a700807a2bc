/** Compiled units in which the optimiser drops a doubled negation: where that
    changes how they end, and where it does not. */
module Negating {
  import opened Options
  import opened Opcodes
  import opened Machine
  import opened Rewriting
  import opened Trampolines
  import opened Stripping
  import opened Passes
  import opened Idle
  import opened Negations
  import opened Effects
  import opened PassSoundness
  import opened Codegen
  import opened Instructions
  import opened Walks
  import opened Discipline
  import Syntax

  /** `!!e` */
  function Twice(e: Syntax.Expr): Syntax.Expr { Syntax.Unary(Not, Syntax.Unary(Not, e)) }

  lemma TwiceCode(e: Syntax.Expr, op: OpCode, at: nat)
    requires ExprCode(e, at, false) == [op]
    ensures ExprCode(Twice(e), at, false) == [op, Un(Not), Un(Not)]
  {
    assert ExprCode(Syntax.Unary(Not, e), at, false) == [op, Un(Not)];
  }

  /** Units end in one way. */
  lemma OneOutcome(h: Host, u: Code, s: Machine.Run, a: Outcome, b: Outcome)
    requires Ends(h, u, s, a) && Ends(h, u, s, b)
    ensures a == b
  {
    hide Steps;
    var m: nat :| Steps(h, u, s, m) == Halted(a);
    var n: nat :| Steps(h, u, s, n) == Halted(b);
    OneEnd(h, u, s, m, n);
  }

  lemma MeaningIs(h: Host, u: Code, v: Code, s: Machine.Run, a: Outcome, b: Outcome)
    requires Ends(h, u, s, a) && Ends(h, v, s, b)
    ensures SameMeaning(h, u, v, s) <==> a == b
  {
    hide Ends;
    if SameMeaning(h, u, v, s) {
      assert Ends(h, v, s, a) by { assert Ends(h, u, s, a) <==> Ends(h, v, s, a); }
      OneOutcome(h, v, s, a, b);
    }
    if a == b {
      forall o ensures Ends(h, u, s, o) <==> Ends(h, v, s, o) {
        if Ends(h, u, s, o) { OneOutcome(h, u, s, o, a); }
        if Ends(h, v, s, o) { OneOutcome(h, v, s, o, a); }
      }
    }
  }

  // ── runs ──

  /** The command at `site` begins. */
  lemma Begins(h: Host, u: Code, pc: nat, site: nat, c: Core, s: Machine.Run, n: nat)
    requires OpAt(u.ops, pc) == BeginCmd(site) && pc < |u.ops| && h.ask(c.w, Machine.Begin(site)).1.Ok?
    requires Steps(h, u, s, n) == Running(pc, State(c, Nil))
    ensures Steps(h, u, s, n + 1) == Now(pc + 1, State(Entered(h, c, site), Nil))
  {
    hide Exec, Steps;
    BeginRuns(h, u.infos, site, State(c, Nil));
    Takes(h, u, s, n, pc, BeginCmd(site), State(c, Nil), Running(pc + 1, State(Entered(h, c, site), Nil)));
  }

  function Entered(h: Host, c: Core, site: int): Core {
    c.(w := h.ask(c.w, Machine.Begin(Spot(site))).0, site := Spot(site))
  }

  lemma Pushes(h: Host, u: Code, pc: nat, k: int, c: Core, s: Machine.Run, n: nat)
    requires OpAt(u.ops, pc) == Push(Int(k)) && pc < |u.ops| && Steps(h, u, s, n) == Running(pc, State(c, Nil))
    ensures Steps(h, u, s, n + 1) == Now(pc + 1, State(Pushed(c, Num(k)), Nil))
  {
    hide Exec, Steps;
    PushRuns(h, u.infos, Int(k), State(c, Nil));
    Takes(h, u, s, n, pc, Push(Int(k)), State(c, Nil), Running(pc + 1, State(Pushed(c, Num(k)), Nil)));
  }

  /** Two negations of a number. */
  lemma Negates(h: Host, u: Code, pc: nat, k: int, c: Core, s: Machine.Run, n: nat)
    requires OpAt(u.ops, pc) == Un(Not) && OpAt(u.ops, pc + 1) == Un(Not) && pc + 1 < |u.ops|
    requires Steps(h, u, s, n) == Running(pc, State(Pushed(c, Num(k)), Nil))
    ensures Steps(h, u, s, n + 2) == Now(pc + 2, State(Pushed(c, OfBool(k != 0)), Nil))
  {
    hide Exec, Steps;
    var d, e := State(Pushed(c, Num(k)), Nil), State(Pushed(c, OfBool(k == 0)), Nil);
    UnRuns(h, u.infos, Not, d);
    Takes(h, u, s, n, pc, Un(Not), d, Running(pc + 1, e));
    UnRuns(h, u.infos, Not, e);
    Takes(h, u, s, n + 1, pc + 1, Un(Not), e, Running(pc + 2, State(Pushed(c, OfBool(k != 0)), Nil)));
  }

  lemma EndsHere(h: Host, u: Code, d: State, s: Machine.Run, n: nat)
    requires Steps(h, u, s, n) == Now(|u.ops|, d)
    ensures Ends(h, u, s, Outcome.Value(Top(h, d.core), d.core))
  {
    hide Steps;
    Finishes(h, u, d);
    StepsAdd(h, u, s, n, 1);
  }

  // ── an expression's value ──

  /** `expr {!!n}` as the compiler reads it. */
  function TwiceNegated(site: nat, n: int): Syntax.Script {
    Syntax.Then(Syntax.Cmd(site, Syntax.Calc(Syntax.Inline(Twice(Syntax.Leaf(Int(n)))))), Syntax.Done)
  }

  lemma TwiceNegatedUnit(site: nat, n: int, infos: seq<ForeachInfo>)
    ensures UnitOf(TwiceNegated(site, n), infos).ops == [BeginCmd(site), Push(Int(n)), Un(Not), Un(Not)]
  {
    TwiceCode(Syntax.Leaf(Int(n)), Push(Int(n)), 1);
    var f := TwiceNegated(site, n).cmd.form;
    assert FormCode(f, 1, false) == [Push(Int(n)), Un(Not), Un(Not)];
    assert CmdCode(TwiceNegated(site, n).cmd, 0, false) == [BeginCmd(site), Push(Int(n)), Un(Not), Un(Not)];
  }

  lemma NegationsRemoved(site: nat, n: int)
    ensures Peephole([BeginCmd(site), Push(Int(n)), Un(Not), Un(Not)]) == [BeginCmd(site), Push(Int(n))]
  {
    hide Round;
    var ops, cut := [BeginCmd(site), Push(Int(n)), Un(Not), Un(Not)], [BeginCmd(site), Push(Int(n)), Nop, Nop];
    var two := [BeginCmd(site), Push(Int(n))];
    assert cut == Rewritten(ops, 2, 2, Nop);
    NotsRound(ops, 2, cut);
    PairStripped(cut, 2);
    assert Strip(cut) == two by { assert cut[..2] + cut[4..] == two; }
    RestingRound(two);
    assert Rounds(two, 7) == two;
  }

  /** One value pushed by the command at `site`. */
  function Giving(h: Host, c: Core, site: nat, v: Val): Outcome { Outcome.Value(v, Pushed(Entered(h, c, site), v)) }

  /** `expr {!!n}` gives 0 or 1; optimised, it gives `n`.  So the optimiser keeps
      its meaning exactly when `n` is 0 or 1. */
  lemma NegationsLost(h: Host, site: nat, n: int, infos: seq<ForeachInfo>, start: Machine.Run)
    requires Begun(start) && h.ask(WorldOf(start), Machine.Begin(site)).1.Ok?
    ensures var u, c := UnitOf(TwiceNegated(site, n), infos), StateOf(start).core;
      && Ends(h, u, start, Giving(h, c, site, OfBool(n != 0)))
      && Ends(h, Optimised(u), start, Giving(h, c, site, Val.Num(n)))
      && (SameMeaning(h, u, Optimised(u), start) <==> n == 0 || n == 1)
  {
    hide Peephole, UnitOf, Steps, Ends;
    var u, c0 := UnitOf(TwiceNegated(site, n), infos), start.d.core;
    var v, c := Optimised(u), Entered(h, c0, site);
    TwiceNegatedUnit(site, n, infos);
    NegationsRemoved(site, n);
    NoStep(h, u, start);
    Begins(h, u, 0, site, c0, start, 0);
    Pushes(h, u, 1, n, c, start, 1);
    Negates(h, u, 2, n, c, start, 2);
    EndsHere(h, u, State(Pushed(c, OfBool(n != 0)), Nil), start, 4);
    NoStep(h, v, start);
    Begins(h, v, 0, site, c0, start, 0);
    Pushes(h, v, 1, n, c, start, 1);
    EndsHere(h, v, State(Pushed(c, Num(n)), Nil), start, 2);
    MeaningIs(h, u, v, start, Giving(h, c0, site, OfBool(n != 0)), Giving(h, c0, site, Num(n)));
  }

  // ── a condition ──

  /** `if {!!$x} {}` */
  function Doubted(site: nat, x: Loc): Syntax.Script {
    Syntax.Then(
      Syntax.Cmd(site, Syntax.If(Syntax.Inline(Twice(Syntax.Read(x))), Syntax.Done, Syntax.NoElse)), Syntax.Done)
  }

  function DoubtOps(site: nat, x: Loc): seq<OpCode> {
    [BeginCmd(site), Load(x), Un(Not), Un(Not), JumpIf(false, 7), Push(Empty), Jump(8), Push(Empty)]
  }

  /** Optimised. */
  function TrustOps(site: nat, x: Loc): seq<OpCode> {
    [BeginCmd(site), Load(x), JumpIf(false, 5), Push(Empty), Jump(6), Push(Empty)]
  }

  lemma DoubtedUnit(site: nat, x: Loc, infos: seq<ForeachInfo>)
    ensures UnitOf(Doubted(site, x), infos).ops == DoubtOps(site, x)
  {
    TwiceCode(Syntax.Read(x), Load(x), 1);
    var f := Doubted(site, x).cmd.form;
    assert TestCode(f.test, 1, false) == [Load(x), Un(Not), Un(Not)];
    assert ScriptCode(f.body, 5, false) == [Push(Empty)] && ArmsCode(f.arms, 7, false) == [Push(Empty)];
    assert [BeginCmd(site)] + FormCode(f, 1, false) == DoubtOps(site, x);
    assert CmdCode(Doubted(site, x).cmd, 0, false) == [BeginCmd(site)] + FormCode(f, 1, false);
  }

  lemma DoubtsRemoved(site: nat, x: Loc)
    ensures Peephole(DoubtOps(site, x)) == TrustOps(site, x)
  {
    hide Round, AtRest, DoubtOps, TrustOps;
    DoubtsCut(site, x);
    TrustRests(site, x);
    RestingRound(TrustOps(site, x));
    assert Rounds(TrustOps(site, x), 7) == TrustOps(site, x);
  }

  lemma DoubtsCut(site: nat, x: Loc)
    ensures Round(DoubtOps(site, x)) == (TrustOps(site, x), true)
  {
    hide Round, Forward, Strip, MapAll;
    var ops := DoubtOps(site, x);
    var cut := [BeginCmd(site), Load(x), Nop, Nop, JumpIf(false, 7), Push(Empty), Jump(8), Push(Empty)];
    assert cut == Rewritten(ops, 2, 2, Nop);
    NotsRound(ops, 2, cut);
    PairStripped(cut, 2);
    DoubtsMoved(cut, site, x);
  }

  lemma TrustRests(site: nat, x: Loc)
    ensures AtRest(TrustOps(site, x))
  {
  }

  lemma DoubtsMoved(cut: seq<OpCode>, site: nat, x: Loc)
    requires cut == DoubtOps(site, x)[..2] + [Nop, Nop] + DoubtOps(site, x)[4..]
    ensures MapAll(cut[..2] + cut[4..], Forward(cut)) == TrustOps(site, x)
  {
    hide Kept;
    PairKept(cut, 2, 7);
    PairKept(cut, 2, 8);
    assert cut[..2] + cut[4..] == [BeginCmd(site), Load(x), JumpIf(false, 7), Push(Empty), Jump(8), Push(Empty)];
  }

  /** Text that begins the command, is read, and is no boolean. */
  ghost predicate Doubtful(h: Host, site: nat, x: Loc, w0: World, w: World, v: Val, e: Fault, f: Fault) {
    && h.ask(w0, Machine.Begin(site)).1.Ok? && h.ask(h.ask(w0, Machine.Begin(site)).0, Request.Read(x)) == (w, Ok(v))
    && v.Other? && h.un(Not, v) == Fault(e) && h.truth(v) == Objects(f) && e.Err? && f.Err?
  }

  /** `if {!!$x} {}` on text that is no boolean: negating it fails with one
      error, reading it as a condition with another.  The unit shows the first,
      optimised it shows the second; it means the same exactly when they are
      the same. */
  lemma DoubtsLost(h: Host, site: nat, x: Loc, infos: seq<ForeachInfo>, start: Machine.Run, w: World, v: Val,
          e: Fault, f: Fault)
    requires Begun(start) && Doubtful(h, site, x, WorldOf(start), w, v, e, f)
    ensures var u, b := UnitOf(Doubted(site, x), infos), StateOf(start).core.bodies;
      && Ends(h, u, start, Failed(e, w, Some((b, site)))) && Ends(h, Optimised(u), start, Failed(f, w, Some((b, site))))
      && (SameMeaning(h, u, Optimised(u), start) <==> e == f)
  {
    hide Peephole, UnitOf, Steps, Ends;
    var u, b := UnitOf(Doubted(site, x), infos), start.d.core.bodies;
    var o, c := Optimised(u), start.d.core.(w := w, site := site);
    DoubtedUnit(site, x, infos);
    DoubtsRemoved(site, x);
    Reads(h, u, site, x, start, w, v);
    Fails(h, u, 2, Un(Not), c, v, e, start, 2);
    Reads(h, o, site, x, start, w, v);
    Fails(h, o, 2, JumpIf(false, 5), c, v, f, start, 2);
    MeaningIs(h, u, o, start, Failed(e, w, Some((b, site))), Failed(f, w, Some((b, site))));
  }

  lemma Reads(h: Host, u: Code, site: nat, x: Loc, start: Machine.Run, w: World, v: Val)
    requires Begun(start) && h.ask(WorldOf(start), Machine.Begin(site)).1.Ok?
    requires h.ask(h.ask(WorldOf(start), Machine.Begin(site)).0, Request.Read(x)) == (w, Ok(v))
    requires OpAt(u.ops, 0) == BeginCmd(site) && OpAt(u.ops, 1) == Load(x) && |u.ops| > 1
    ensures Steps(h, u, start, 2) == Now(2, State(Pushed(StateOf(start).core.(w := w, site := site), v), Nil))
  {
    hide Exec, Steps;
    var c := Entered(h, start.d.core, site);
    NoStep(h, u, start);
    Begins(h, u, 0, site, start.d.core, start, 0);
    LoadRuns(h, u.infos, x, State(c, Nil));
    Takes(h, u, start, 1, 1, Load(x), State(c, Nil), Running(2, State(Pushed(c.(w := w), v), Nil)));
  }

  lemma Fails(h: Host, u: Code, pc: nat, op: OpCode, c: Core, v: Val, e: Fault, s: Machine.Run, n: nat)
    requires v.Other? && e.Err? && OpAt(u.ops, pc) == op && pc < |u.ops|
    requires Steps(h, u, s, n) == Running(pc, State(Pushed(c, v), Nil))
    requires (op == Un(Not) && h.un(Not, v) == Fault(e)) || (op.JumpIf? && h.truth(v) == Objects(e))
    ensures Ends(h, u, s, Failed(e, c.w, Some((c.bodies, c.site))))
  {
    hide Exec, Steps;
    var d, t := State(Pushed(c, v), Nil), Halted(Failed(e, c.w, Some((c.bodies, c.site))));
    if op.JumpIf? { JumpIfRuns(h, u.infos, op.want, op.t, d); } else { UnRuns(h, u.infos, Not, d); }
    Takes(h, u, s, n, pc, op, d, t);
  }

  // ── a value nobody wants ──

  /** `expr {!!n}; exit code` */
  function Idly(n: int, code: int): Syntax.Script {
    Syntax.Then(TwiceNegated(0, n).cmd, Syntax.Then(Syntax.Cmd(1, Syntax.Stop(code)), Syntax.Done))
  }

  function LeaveOps(code: int): seq<OpCode> { [BeginCmd(1), OpCode.Exit(code)] }

  function IdleOps(n: int, code: int): seq<OpCode> {
    [BeginCmd(0), Push(Int(n)), Un(Not), Un(Not), Pop] + LeaveOps(code)
  }

  /** After one round. */
  function DropOps(n: int, code: int): seq<OpCode> { [BeginCmd(0), Push(Int(n)), Pop] + LeaveOps(code) }

  /** After two. */
  function LastOps(code: int): seq<OpCode> { [BeginCmd(0)] + LeaveOps(code) }

  lemma IdlyUnit(n: int, code: int, infos: seq<ForeachInfo>)
    ensures UnitOf(Idly(n, code), infos).ops == IdleOps(n, code)
  {
    TwiceCode(Syntax.Leaf(Int(n)), Push(Int(n)), 1);
    var s := Idly(n, code);
    assert FormCode(s.cmd.form, 1, false) == [Push(Int(n)), Un(Not), Un(Not)];
    assert CmdCode(s.cmd, 0, false) == [BeginCmd(0), Push(Int(n)), Un(Not), Un(Not)];
    assert FormCode(s.rest.cmd.form, 6, false) == [OpCode.Exit(code)];
    assert CmdCode(s.rest.cmd, 5, false) == LeaveOps(code);
    assert CmdsCode(s.rest, 5, false) == LeaveOps(code);
  }

  lemma IdlyRemoved(n: int, code: int)
    ensures Peephole(IdleOps(n, code)) == LastOps(code)
  {
    hide Round, IdleOps, DropOps;
    IdlyCut(n, code);
    IdlyDropped(n, code);
    RestingRound(LastOps(code));
    assert Rounds(LastOps(code), 6) == LastOps(code);
    assert Rounds(DropOps(n, code), 7) == LastOps(code);
  }

  lemma IdlyCut(n: int, code: int)
    ensures Round(IdleOps(n, code)) == (DropOps(n, code), true)
  {
    hide Round, Strip, Forward;
    var cut := [BeginCmd(0), Push(Int(n)), Nop, Nop, Pop, BeginCmd(1), OpCode.Exit(code)];
    assert cut == Rewritten(IdleOps(n, code), 2, 2, Nop);
    NotsRound(IdleOps(n, code), 2, cut);
    PairStripped(cut, 2);
    StraightStays(DropOps(n, code), Forward(cut));
    assert cut[..2] + cut[4..] == DropOps(n, code);
  }

  lemma IdlyDropped(n: int, code: int)
    ensures Round(DropOps(n, code)) == (LastOps(code), true)
  {
    hide Round, Strip, Forward;
    var cut := [BeginCmd(0), Nop, Nop, BeginCmd(1), OpCode.Exit(code)];
    assert cut == Rewritten(DropOps(n, code), 1, 2, Nop);
    DropRound(DropOps(n, code), 1, cut);
    PairStripped(cut, 1);
    StraightStays(LastOps(code), Forward(cut));
    assert cut[..1] + cut[3..] == LastOps(code);
  }

  /** Both commands begin. */
  ghost predicate Answered(h: Host, w: World) {
    h.ask(w, Machine.Begin(0)).1.Ok? && h.ask(h.ask(w, Machine.Begin(0)).0, Machine.Begin(1)).1.Ok?
  }

  /** That negations fit is not needed where nobody wants their value: the unit
      of `expr {!!n}; exit code` means the same optimised, whatever `n` is. */
  lemma FittingIsNotNeeded(h: Host, n: int, code: int, infos: seq<ForeachInfo>, start: Machine.Run)
    requires Begun(start) && Answered(h, WorldOf(start))
    ensures var u := UnitOf(Idly(n, code), infos);
      SameMeaning(h, u, Optimised(u), start) && (NotsFit(h, u, start) ==> n == 0 || n == 1)
  {
    hide Peephole, UnitOf, Steps, Ends, NotsFit;
    var u, c0 := UnitOf(Idly(n, code), infos), start.d.core;
    var v, c := Optimised(u), Entered(h, c0, 0);
    var o := Failed(Quit(code), Entered(h, c, 1).w, None);
    IdlyUnit(n, code, infos);
    IdlyRemoved(n, code);
    NoStep(h, u, start);
    Begins(h, u, 0, 0, c0, start, 0);
    Pushes(h, u, 1, n, c, start, 1);
    Unfitting(h, u, n, c, start, 2);
    Negates(h, u, 2, n, c, start, 2);
    Drops(h, u, 4, OfBool(n != 0), c, start, 4);
    Leaves(h, u, 5, code, c, start, 5);
    NoStep(h, v, start);
    Begins(h, v, 0, 0, c0, start, 0);
    Leaves(h, v, 1, code, c, start, 1);
    MeaningIs(h, u, v, start, o, o);
  }

  /** What is dropped is no place for a doubled negation. */
  lemma Unfitting(h: Host, u: Code, n: int, c: Core, start: Machine.Run, k: nat)
    requires |u.ops| == 7 && OpAt(u.ops, 2) == Un(Not) && OpAt(u.ops, 3) == Un(Not) && OpAt(u.ops, 4) == Pop
    requires Steps(h, u, start, k) == Now(2, State(Pushed(c, Num(n)), Nil))
    ensures NotsFit(h, u, start) ==> n == 0 || n == 1
  {
    hide Steps;
    assert Reaches(h, u, start, Running(2, State(Pushed(c, Num(n)), Nil)));
    assert FateAt(u.ops, 4, false) == Never;
    assert FateAt(u.ops, 3, true) == Never;
  }

  lemma Drops(h: Host, u: Code, pc: nat, v: Val, c: Core, s: Machine.Run, n: nat)
    requires OpAt(u.ops, pc) == Pop && pc < |u.ops| && Steps(h, u, s, n) == Running(pc, State(Pushed(c, v), Nil))
    ensures Steps(h, u, s, n + 1) == Now(pc + 1, State(c, Nil))
  {
    hide Exec, Steps;
    PopRuns(h, u.infos, State(Pushed(c, v), Nil));
    Takes(h, u, s, n, pc, Pop, State(Pushed(c, v), Nil), Running(pc + 1, State(c, Nil)));
  }

  lemma Leaves(h: Host, u: Code, pc: nat, code: int, c: Core, s: Machine.Run, n: nat)
    requires [OpAt(u.ops, pc), OpAt(u.ops, pc + 1)] == LeaveOps(code) && pc + 1 < |u.ops|
    requires h.ask(c.w, Machine.Begin(Spot(1))).1.Ok? && Steps(h, u, s, n) == Running(pc, State(c, Nil))
    ensures Ends(h, u, s, Failed(Quit(code), Entered(h, c, 1).w, None))
  {
    hide Exec, Steps;
    var e := State(Entered(h, c, 1), Nil);
    assert LeaveOps(code)[0] == BeginCmd(1) && LeaveOps(code)[1] == OpCode.Exit(code);
    Begins(h, u, pc, 1, c, s, n);
    ExitRuns(h, u.infos, code, e);
    Takes(h, u, s, n + 1, pc + 1, OpCode.Exit(code), e, Halted(Failed(Quit(code), e.core.w, None)));
  }
}

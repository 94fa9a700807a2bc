/** From parsed source to an optimised unit. */
module Units {
  import opened Options
  import opened Opcodes
  import opened Machine
  import opened Discipline
  import opened Laws
  import opened Windows
  import opened Passes
  import opened Effects
  import opened Tidiness
  import opened Stacks
  import opened PassSoundness
  import opened Unfusing
  import opened UnfusedSoundness
  import opened UnfusedRuns
  import opened Negations
  import opened Levels
  import opened ByteCodes
  import opened Codegen
  import opened Layouts
  import opened Fitting
  import opened Instructions
  import opened Programs
  import opened Sources
  import opened Resolution
  import opened Meaning
  import opened Resolved
  import opened Typing
  import opened Compilers
  import Exprs
  import Syntax
  import Nested
  import Rerouting
  import Walks

  /** The script of a unit, its sites and its foreach shapes. */
  function Whole(cs: seq<Command>, source: string): (Syntax.Script, Tables) {
    Commands(cs, source, TOP, Tables([], [], []))
  }

  function Draft(cs: seq<Command>, source: string): Code { var r := Whole(cs, source); UnitOf(r.0, r.1.infos) }

  /** Compile, then optimise. */
  method CompileUnit(source: string, cs: seq<Command>) returns (c: Compiler)
    requires CommandsTyped(cs)
    ensures c.Valid() && c.bc.ops == Peephole(Draft(cs, source).ops)
    ensures c.sites == Whole(cs, source).1.sites && c.infos == Draft(cs, source).infos
  {
    hide Commands, CmdsCode, Peephole, InRange, CommandsTyped, Guarded;
    c := new Compiler(source);
    c.CompileCommands(cs);
    assert c.bc.ops == Draft(cs, source).ops;
    DraftIsTidy(cs, source);
    c.bc.Optimise();
  }

  /** Every unit the compiler drafts has the shape the optimiser relies on. */
  lemma DraftIsTidy(cs: seq<Command>, source: string)
    requires CommandsTyped(cs)
    ensures WellFormed(Draft(cs, source)) && Guarded(Draft(cs, source).ops)
  {
    hide Commands, UnitOf, WellFormed, Guarded, CommandsTyped;
    CommandsShaped(cs, source, TOP, Tables([], [], []), Whole(cs, source).1.infos);
    CompiledIsGuarded(Whole(cs, source).0, Whole(cs, source).1.infos);
  }

  /** Optimised, a draft ends as it would have, whatever its `continue`s are
      compiled for. */
  lemma DraftOptimised(h: Host, cs: seq<Command>, source: string, framed: bool, start: Machine.Run)
    requires Lawful(h) && NotsAgree(h) && CommandsTyped(cs) && OneFrame(Draft(cs, source).infos, framed) && Fresh(start)
    requires NotsFit(h, Draft(cs, source), start)
    ensures SameMeaning(h, Draft(cs, source), Optimised(Draft(cs, source)), start)
  {
    hide Exec, Commands, CmdsCode, Optimised, CommandsTyped, ShapedScript, NotsFit, NotsAgree, Lawful, WellFormed,
        Guarded, RunsOrderly, SameMeaning;
    var r := Whole(cs, source);
    CommandsShaped(cs, source, TOP, Tables([], [], []), r.1.infos);
    CompiledIsGuarded(r.0, r.1.infos);
    ShapedIsOrderly(h, r.0, r.1.infos, start, framed);
    PeepholeKeepsMeaning(h, Draft(cs, source), start);
  }

  /** Compiled and optimised, a script still means what it means, as long as
      its doubled negations may be dropped where they stand. */
  lemma OptimisedMeaning(h: Host, s: Syntax.Script, infos: seq<ForeachInfo>, start: Machine.Run, o: Outcome)
    requires Lawful(h) && NotsAgree(h) && FitScript(infos, s, false, Nil) && Begun(start)
    requires NotsFit(h, UnitOf(s, infos), start)
    ensures (exists t :: Ends(h, Optimised(UnitOf(s, infos)), start, t) && Same(t, o))
      <==> (exists fuel: nat :: Evaluates(h, s, WorldOf(start), fuel, o))
  {
    hide Exec, Ends, UnitOf, WellFormed, Guarded, RunsOrderly, NotsFit, NotsAgree, Lawful, Optimised, Evaluates, Same;
    var u := UnitOf(s, infos);
    CompiledIsGuarded(s, infos);
    CompiledIsOrderly(h, s, infos, start);
    PeepholeKeepsMeaning(h, u, start);
    CompiledMeaning(h, s, infos, start, o);
    var v := Optimised(u);
    forall t ensures Ends(h, u, start, t) <==> Ends(h, v, start, t) { }
  }

  /** The source, evaluated from its first command on, has this outcome. */
  ghost predicate Means(h: Host, cs: seq<Command>, source: string, w: World, fuel: nat, o: Outcome) {
    var r := ScriptDoes(h, cs, source, 0, Tally(0, 0), w, fuel);
    r.Some? && Shows(o, r.value.0, r.value.1)
  }

  /** What the compiler makes of a source has the source's outcomes. */
  lemma WholeMeans(h: Host, cs: seq<Command>, source: string, w: World, fuel: nat, o: Outcome)
    ensures Evaluates(h, Whole(cs, source).0, w, fuel, o) <==> Means(h, cs, source, w, fuel, o)
  {
    hide Commands, ScriptDoes;
    ScriptSame(h, cs, source, TOP, Tables([], [], []), w, fuel);
  }

  /** Parsed, compiled and optimised, a source does what it means. */
  lemma UnitMeaning(h: Host, cs: seq<Command>, source: string, start: Machine.Run, o: Outcome)
    requires Lawful(h) && NotsAgree(h) && CommandsTyped(cs) && AimedScript(Whole(cs, source).0) && Begun(start)
    requires NotsFit(h, Draft(cs, source), start)
    ensures (exists t :: Ends(h, Optimised(Draft(cs, source)), start, t) && Same(t, o))
      <==> (exists fuel: nat :: Means(h, cs, source, WorldOf(start), fuel, o))
  {
    hide Commands, UnitOf, Optimised, CommandsTyped, PlanScript, ShapedScript, NotsFit, NotsAgree, Ends, Same,
        Evaluates, Means;
    var r := Whole(cs, source);
    CommandsShaped(cs, source, TOP, Tables([], [], []), r.1.infos);
    OptimisedMeaning(h, r.0, r.1.infos, start, o);
    forall fuel: nat
      ensures Evaluates(h, r.0, WorldOf(start), fuel, o) <==> Means(h, cs, source, WorldOf(start), fuel, o)
    {
      WholeMeans(h, cs, source, WorldOf(start), fuel, o);
    }
  }

  /** What its source must look like for that: every doubled `!` stands over a
      comparison or another `!`, or is a condition that can be read. */
  lemma NegatedUnitMeaning(h: Host, cs: seq<Command>, source: string, start: Machine.Run, o: Outcome)
    requires Lawful(h) && NotsAgree(h) && CommandsTyped(cs) && Begun(start)
    requires AimedScript(Whole(cs, source).0) && NegatedScript(Whole(cs, source).0)
    requires BranchesRead(h, Draft(cs, source), start)
    ensures (exists t :: Ends(h, Optimised(Draft(cs, source)), start, t) && Same(t, o))
      <==> (exists fuel: nat :: Means(h, cs, source, WorldOf(start), fuel, o))
  {
    hide Commands, UnitOf, Optimised, CommandsTyped, PlanScript, ShapedScript, NotsFit, NotsAgree, Ends, Same,
        Evaluates, Means, BranchesRead;
    var r := Whole(cs, source);
    CommandsShaped(cs, source, TOP, Tables([], [], []), r.1.infos);
    NegatedFits(h, r.0, r.1.infos, start);
    UnitMeaning(h, cs, source, start, o);
  }

  /** Where every doubled `!` stands over a comparison or another `!`, in
      conditions too, the source alone decides that its meaning is kept. */
  lemma BitUnitMeaning(h: Host, cs: seq<Command>, source: string, start: Machine.Run, o: Outcome)
    requires Lawful(h) && NotsAgree(h) && CommandsTyped(cs) && Begun(start)
    requires AimedScript(Whole(cs, source).0) && BitScript(Whole(cs, source).0)
    ensures (exists t :: Ends(h, Optimised(Draft(cs, source)), start, t) && Same(t, o))
      <==> (exists fuel: nat :: Means(h, cs, source, WorldOf(start), fuel, o))
  {
    hide Commands, UnitOf, Optimised, CommandsTyped, PlanScript, ShapedScript, NotsFit, NotsAgree, Ends, Same,
        Evaluates, Means;
    var r := Whole(cs, source);
    CommandsShaped(cs, source, TOP, Tables([], [], []), r.1.infos);
    BitsFit(h, r.0, r.1.infos, start);
    UnitMeaning(h, cs, source, start, o);
  }

  /** Expanded again, it still does, whatever its commands raise, errors compared
      without their trails, as long as no `for` or `foreach` runs inside a next
      script. */
  lemma UnfusedUnitMeaning(h: Host, cs: seq<Command>, source: string, start: Machine.Run, o: Outcome)
    requires Lawful(h) && NotsAgree(h) && CommandsTyped(cs) && FlatScript(Whole(cs, source).0) && Begun(start)
    requires NotsFit(h, Draft(cs, source), start)
    ensures (exists t :: Ends(h, Expanded(Optimised(Draft(cs, source))), start, t) && Same(t, o))
      <==> (exists fuel: nat :: Means(h, cs, source, WorldOf(start), fuel, o))
  {
    hide Commands, UnitOf, Optimised, CommandsTyped, PlanScript, NotsFit, NotsAgree, Lawful, Ends, Same, Means,
        Unfused, Flat;
    FlatIsAimed(Whole(cs, source).0, false, Nil);
    UnitMeaning(h, cs, source, start, o);
    var u := Optimised(Draft(cs, source));
    OptimisedFlat(h, cs, source, start);
    if t :| Ends(h, u, start, t) && Same(t, o) {
      UnfusedKeepsMeaning(h, u, start, t);
      var e :| Ends(h, Expanded(u), start, e) && ViewOut(true, e) == ViewOut(true, t);
      ViewedAlike(e, t);
      assert Same(e, o);
    }
    if e :| Ends(h, Expanded(u), start, e) && Same(e, o) {
      UnfusedKeepsMeaning(h, u, start, e);
      var t :| Ends(h, u, start, t) && ViewOut(true, t) == ViewOut(true, e);
      ViewedAlike(t, e);
      assert Same(t, o);
    }
  }

  lemma ViewedAlike(a: Outcome, b: Outcome)
    requires ViewOut(true, a) == ViewOut(true, b)
    ensures forall o :: Same(a, o) <==> Same(b, o)
  {
  }

  /** Optimised, a unit whose runs are tame is flat. */
  lemma TameIsFlat(h: Host, s: Syntax.Script, infos: seq<ForeachInfo>, start: Machine.Run)
    requires Lawful(h) && NotsAgree(h) && FitScript(infos, s, false, Nil) && Begun(start)
    requires NotsFit(h, UnitOf(s, infos), start) && Tame(h, UnitOf(s, infos), start)
    ensures Flat(h, Optimised(UnitOf(s, infos)), start)
  {
    hide Exec, UnitOf, Optimised, PlanScript, ShapedScript, NotsFit, NotsAgree, WellFormed, Guarded, RunsOrderly,
        RunsRoomy,
      HoldersHaveRoom, Lawful, Tame;
    var u := UnitOf(s, infos);
    CompiledIsGuarded(s, infos);
    CompiledIsOrderly(h, s, infos, start);
    CompiledIsPlain(s, infos);
    PlainHasRoom(h, u, start);
    PeepholeKeepsMeaning(h, u, start);
    OrderlyIsRoomy(h, Optimised(u), start);
  }

  /** Optimised units of flat scripts meet what the expansion asks for. */
  lemma OptimisedFlat(h: Host, cs: seq<Command>, source: string, start: Machine.Run)
    requires Lawful(h) && NotsAgree(h) && CommandsTyped(cs) && FlatScript(Whole(cs, source).0) && Begun(start)
    requires NotsFit(h, Draft(cs, source), start)
    ensures Flat(h, Optimised(Draft(cs, source)), start)
  {
    hide Commands, UnitOf, Optimised, CommandsTyped, PlanScript, ShapedScript, NotsFit, NotsAgree, Lawful, Tame, Flat;
    var r := Whole(cs, source);
    CommandsShaped(cs, source, TOP, Tables([], [], []), r.1.infos);
    FlatIsAimed(r.0, false, Nil);
    FlatIsTame(h, r.0, r.1.infos, start);
    TameIsFlat(h, r.0, r.1.infos, start);
  }

  lemma PlainHasRoom(h: Host, u: Code, start: Machine.Run)
    requires forall k | 0 <= k < |u.ops| :: !u.ops[k].Super?
    ensures HoldersHaveRoom(h, u, start)
  {
    hide Reaches;
  }

  lemma OrderlyIsRoomy(h: Host, u: Code, start: Machine.Run)
    requires RunsOrderly(h, u, start) && HoldersHaveRoom(h, u, start)
    ensures RunsRoomy(h, u, start)
  {
    hide Reaches;
    forall pc: nat, d | Reaches(h, u, start, Running(pc, d))
      ensures RoomFor(d.core, Innermost(d.loops), if Holding(OpAt(u.ops, pc)) then 1 else 0)
    {
      assert Orderly(u, Running(pc, d));
    }
  }

  // ── expressions ──

  /** Parentheses leave no trace in the code. */
  lemma {:induction false} GroupsVanish(t: Exprs.Tree, ss: seq<Syntax.Script>)
    ensures ExprOfTree(t, ss) == ExprOfTree(Exprs.Bare(t), ss)
  {
    match t
    case Group(x) => GroupsVanish(x, ss);
    case Binary(_, l, r) => GroupsVanish(l, ss); GroupsVanish(r, ss);
    case Unary(_, x) => GroupsVanish(x, ss);
    case _ =>
  }

  /** The minimal and the fully parenthesised form of a tree are both compiled
      to the tree's own postorder. */
  lemma FormsCompileAlike(t: Exprs.Tree, ok: nat -> bool, ss: seq<Syntax.Script>, at: nat, next: bool)
    requires Exprs.AllOk(t, ok)
    ensures forall form | form in [Exprs.Minimal(t, 0), Exprs.Full(t)] ::
      var p := Exprs.Parse(Exprs.Tokens(form), ok, 0, 0);
      p.Good? && p.next == |Exprs.Tokens(form)| && ExprCode(ExprOfTree(p.t, ss), at, next)
          == ExprCode(ExprOfTree(t, ss), at, next)
  {
    hide ExprCode;
    Exprs.FormsAreRead(t, ok);
    GroupsVanish(t, ss);
    GroupsVanish(Exprs.Parse(Exprs.Tokens(Exprs.Minimal(t, 0)), ok, 0, 0).t, ss);
    GroupsVanish(Exprs.Parse(Exprs.Tokens(Exprs.Full(t)), ok, 0, 0).t, ss);
  }

  // ── a loop in a next script does no harm where no run comes to it ──

  /** `exit code` in front of everything. */
  function Early(site: nat, code: int,
          rest: Syntax.Script): Syntax.Script { Syntax.Then(Syntax.Cmd(site, Syntax.Stop(code)), rest) }

  lemma EarlyOps(site: nat, code: int, rest: Syntax.Script, infos: seq<ForeachInfo>)
    ensures var ops := UnitOf(Early(site, code, rest), infos).ops;
      |ops| >= 2 && OpAt(ops, 0) == BeginCmd(site) && OpAt(ops, 1) == OpCode.Exit(code)
  {
    var s := Early(site, code, rest);
    assert FormCode(Syntax.Stop(code), 1, false) == [OpCode.Exit(code)];
    assert CmdCode(s.cmd, 0, false) == [BeginCmd(site), OpCode.Exit(code)];
  }

  predicate StillEarly(t: Machine.Run) { t.Running? ==> t.pc <= 1 && t.d.loops.Nil? }

  lemma EarlySteps(h: Host, u: Code, site: nat, code: int, start: Machine.Run, n: nat)
    requires |u.ops| >= 2 && OpAt(u.ops, 0) == BeginCmd(site) && OpAt(u.ops, 1) == OpCode.Exit(code) && Fresh(start)
    ensures StillEarly(Steps(h, u, start, n))
  {
    hide Exec;
    Instructions.BeginRuns(h, u.infos, site, start.d);
    var t := Step(h, u, start);
    if n >= 1 && t.Running? {
      ExitRuns(h, u.infos, code, t.d);
      var e := Step(h, u, t);
      assert e.Halted?;
      if n >= 2 {
        assert Steps(h, u, start, n) == Steps(h, u, e, n - 2);
        HaltedStays(h, u, e, n - 2);
      }
    } else if n >= 1 {
      HaltedStays(h, u, t, n - 1);
    }
  }

  lemma EarlyTame(h: Host, site: nat, code: int, rest: Syntax.Script, infos: seq<ForeachInfo>, start: Machine.Run)
    requires ShapedScript(infos, Early(site, code, rest)) && Fresh(start)
    ensures var u := UnitOf(Early(site, code, rest), infos); Tame(h, u, start) && NotsFit(h, u, start)
  {
    hide ShapedScript, CmdsCode, Account, OpFits, Barrier, NotFits, FateAt, Steps;
    var s := Early(site, code, rest);
    var u, m, lays := UnitOf(s, infos), Mode(false, None, false, false, false), Account(s, start.d);
    EarlyOps(site, code, rest, infos);
    UnitAccounted(m, s, infos, start.d);
    forall pc | 0 <= pc < |u.ops| && StartsPass(u.ops[pc]) ensures Barrier(Before(u.ops, pc)) {
      assert RoleFits(m, u.ops, lays, pc);
    }
    forall pc: nat, d | Reaches(h, u, start, Running(pc, d))
        ensures TameAt(u.ops, pc, d) && NotFitsAt(h, u.ops, pc, d) {
      var n: nat :| Steps(h, u, start, n) == Running(pc, d);
      EarlySteps(h, u, site, code, start, n);
    }
  }

  /** Flatness is not needed of code no run comes to: behind an `exit` the script
      of the rerouted unit and its expansion end alike. */
  lemma FlatIsNotNeeded(h: Host, site: nat, code: int, y: Loc, f: nat, start: Machine.Run, o: Outcome)
    requires Lawful(h) && NotsAgree(h) && Begun(start)
    ensures !FlatScript(Early(site, code, Nested.Nest(y, f)))
    ensures var u := UnitOf(Early(site, code, Nested.Nest(y, f)), Walks.Shapes()); var v := Optimised(u);
      (exists t :: Ends(h, v, start, t) && ViewOut(true, t) == ViewOut(true, o))
      <==> (exists t :: Ends(h, Expanded(v), start, t) && ViewOut(true, t) == ViewOut(true, o))
  {
    hide UnitOf, Optimised, NotsFit, NotsAgree, Lawful, Tame, Flat, Ends, Unfused, Nested.Nest;
    var rest, infos := Nested.Nest(y, f), Walks.Shapes();
    Rerouting.NestShaped(y, f);
    Rerouting.NestAimed(y, f);
    EarlyFits(site, code, rest, infos);
    var s := Early(site, code, rest);
    EarlyTame(h, site, code, rest, infos, start);
    TameIsFlat(h, s, infos, start);
    UnfusedKeepsMeaning(h, Optimised(UnitOf(s, infos)), start, o);
  }

  lemma EarlyFits(site: nat, code: int, rest: Syntax.Script, infos: seq<ForeachInfo>)
    requires ShapedScript(infos, rest) && AimedScript(rest) && !FlatScript(rest)
    ensures ShapedScript(infos, Early(site, code, rest)) && AimedScript(Early(site, code, rest))
        && !FlatScript(Early(site, code, rest))
  {
    assert ShapedForm(infos, Syntax.Stop(code)) && PlanForm(AIMED, Syntax.Stop(code), false, Nil);
  }
}

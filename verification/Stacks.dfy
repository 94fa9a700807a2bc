/** Compiled units: at every place a run reaches, how many operands, which
    regions, loops and iterations there are is decided by the place alone. */
module Stacks {
  import opened Options
  import opened Opcodes
  import opened Machine
  import opened Discipline
  import opened Laws
  import opened Negations
  import opened Levels
  import opened Effects
  import opened Syntax
  import opened Codegen
  import opened Fitting
  import opened Layouts
  import opened Accounts
  import opened Accounting

  /** What is on the stacks when the unit starts. */
  function Found(d: State): Layout { Layout(Depth(d.core.stack), d.core.bodies, d.core.site, Nil, Nil, false) }

  /** The layout at every place of the unit, its end included. */
  function Account(s: Script, d: State): (r: seq<Layout>)
    ensures r != []
  {
    if s.Done? then [Found(d)] else CmdsLays(s, 0, false, Found(d)) + [ScriptOut(s, Found(d))]
  }

  /** All iterations of a unit are framed, or none is. */
  predicate OneFrame(infos: seq<ForeachInfo>, framed: bool) { forall i | 0 <= i < |infos| :: infos[i].framed == framed }

  predicate FramedAlike(infos: seq<ForeachInfo>, framed: Option<bool>) {
    framed.Some? && OneFrame(infos, framed.value)
  }

  /** What a mode asks of the script and its shapes. */
  predicate Meets(m: Mode, s: Script, infos: seq<ForeachInfo>) {
    && ShapedScript(infos, s)
    && (m.exact || m.flat || m.bits ==> PlanScript(Plan(m.exact, m.flat, m.bits, m.strict), s, false, Nil))
    && (m.framed.Some? ==> OneFrame(infos, m.framed.value))
  }

  lemma UnitAccounted(m: Mode, s: Script, infos: seq<ForeachInfo>, d: State)
    requires Meets(m, s, infos)
    ensures Accounted(m, UnitOf(s, infos), Account(s, d), Depth(d.core.stack))
  {
    hide PlanScript, ShapedScript, CmdsCode, CmdsLays, OpFits, RoleFits, LastSite;
    var u, lays, x := UnitOf(s, infos), Account(s, d), Found(d);
    if s.Then? {
      var g := Book(m, u, lays, Depth(d.core.stack));
      var code, ls := CmdsCode(s, 0, false), CmdsLays(s, 0, false, x);
      assert u.ops[0..0 + |code|] == code;
      assert lays[0..0 + |ls|] == ls;
      CmdsGood(g, s, 0, false, x);
      forall pc | 0 <= pc < |u.ops| ensures OpFits(m, u.infos, lays, g.base, pc, u.ops[pc])
          && RoleFits(m, u.ops, lays, pc) {
        assert GoodAt(g, pc);
      }
    }
  }

  /** Every state a run reaches has the layout of its place. */
  lemma ReachedHas(m: Mode, h: Host, s: Script, infos: seq<ForeachInfo>, start: Machine.Run, pc: nat, d: State)
    requires Meets(m, s, infos) && Fresh(start) && (m.bits ==> NotsAgree(h))
    requires Reaches(h, UnitOf(s, infos), start, Running(pc, d))
    ensures var u, lays := UnitOf(s, infos), Account(s, StateOf(start));
      && pc < |lays| == |u.ops| + 1 && Has(m, LayAt(lays, pc), d, StateOf(start).core.foreaches)
      && (pc < |u.ops| ==>
          OpFits(m, infos, lays, Depth(StateOf(start).core.stack), pc, OpAt(u.ops, pc)) && RoleFits(m, u.ops, lays, pc))
  {
    hide Reaches, Meets, OpFits, RoleFits, NotsAgree, CmdsCode, CmdsLays, LastSite;
    var u, lays, fs0 := UnitOf(s, infos), Account(s, start.d), start.d.core.foreaches;
    UnitAccounted(m, s, infos, start.d);
    assert lays[0] == Found(start.d);
    assert Has(m, lays[0], start.d, fs0) by { SameSelf(m.exact, start.d.core.bodies); }
    ReachedFits(m, h, u, lays, Depth(start.d.core.stack), start, Running(pc, d), fs0);
  }

  /** Wherever every `continue` is compiled for its own loop: operands, regions,
      site and loops are those of the place, so are the kinds of the iterations,
      and an instruction never takes an operand that lies below the innermost
      loop or the start of the unit. */
  lemma PlaceDecides(h: Host, s: Script, infos: seq<ForeachInfo>, start: Machine.Run, pc: nat, d: State)
    requires FitScript(infos, s, false, Nil) && Fresh(start)
    requires Reaches(h, UnitOf(s, infos), start, Running(pc, d))
    ensures var u, lays := UnitOf(s, infos), Account(s, StateOf(start)); var x := LayAt(lays, pc);
      && pc < |lays| == |u.ops| + 1
      && Depth(d.core.stack) == x.depth && d.core.bodies == x.bodies
      && d.core.site == x.site && d.loops == x.loops
      && Exactly(d.core.foreaches, StateOf(start).core.foreaches, x.frames)
      && (pc < |u.ops| ==> Floor(x, Depth(StateOf(start).core.stack)) + Pops(infos, OpAt(u.ops, pc)) <= x.depth)
  {
    hide Reaches, ShapedScript, PlanScript, UnitOf, Account, Leads, Anchored, Escapes, RoleFits, PlainFits, LoopFits;
    var m := Mode(true, None, false, false, false);
    ReachedHas(m, h, s, infos, start, pc, d);
    SameDepth(true, d.core.bodies, Account(s, start.d)[pc].bodies);
  }

  /** Two runs at one place, under whatever hosts, agree on all of that. */
  lemma PlacesAgree(h: Host, k: Host, s: Script, infos: seq<ForeachInfo>, start: Machine.Run, pc: nat, d: State,
          e: State)
    requires FitScript(infos, s, false, Nil) && Fresh(start)
    requires Reaches(h, UnitOf(s, infos), start, Running(pc, d)) && Reaches(k, UnitOf(s, infos), start, Running(pc, e))
    ensures Depth(d.core.stack) == Depth(e.core.stack) && d.core.bodies == e.core.bodies && d.core.site == e.core.site
        && d.loops == e.loops
  {
    hide Reaches, FitScript, UnitOf, Account, Floor, Pops, Exactly;
    PlaceDecides(h, s, infos, start, pc, d);
    PlaceDecides(k, s, infos, start, pc, e);
  }

  /** At its end a unit has one operand more than it started with, and nothing
      else. */
  lemma EndsBalanced(h: Host, s: Script, infos: seq<ForeachInfo>, start: Machine.Run, d: State)
    requires s.Then? && FitScript(infos, s, false, Nil) && Fresh(start)
    requires Reaches(h, UnitOf(s, infos), start, Now(|UnitOf(s, infos).ops|, d))
    ensures Depth(d.core.stack) == Depth(StateOf(start).core.stack) + 1 && d.core.bodies == StateOf(start).core.bodies
    ensures d.loops.Nil? && d.core.foreaches == StateOf(start).core.foreaches
        && d.core.site == LastSite(s, StateOf(start).core.site)
  {
    hide Reaches, FitScript, CmdsCode, CmdsLays, LastSite;
    PlaceDecides(h, s, infos, start, |UnitOf(s, infos).ops|, d);
    assert Account(s, start.d)[|UnitOf(s, infos).ops|] == ScriptOut(s, Found(start.d));
  }

  /** Whatever its `continue`s are compiled for, a unit's operands, loops and
      sites are those of the place, its regions too but for what kind of
      iteration they belong to, and no operand is missing. */
  lemma PlaceDecidesAnyway(h: Host, s: Script, infos: seq<ForeachInfo>, start: Machine.Run, pc: nat, d: State)
    requires ShapedScript(infos, s) && Fresh(start)
    requires Reaches(h, UnitOf(s, infos), start, Running(pc, d))
    ensures var u, lays := UnitOf(s, infos), Account(s, StateOf(start)); var x := LayAt(lays, pc);
      && pc < |lays| == |u.ops| + 1
      && Depth(d.core.stack) == x.depth && SameRegions(false, d.core.bodies, x.bodies)
      && d.core.site == x.site && d.loops == x.loops
      && AtLeast(None, d.core.foreaches, StateOf(start).core.foreaches, Depth(x.frames))
      && (pc < |u.ops| ==> Floor(x, Depth(StateOf(start).core.stack)) + Pops(infos, OpAt(u.ops, pc)) <= x.depth)
  {
    hide Reaches, ShapedScript, UnitOf, Account, Leads, Anchored, Escapes, RoleFits, PlainFits, LoopFits;
    ReachedHas(Mode(false, None, false, false, false), h, s, infos, start, pc, d);
  }

  /** Every state of every run of a compiled unit is orderly. */
  lemma CompiledIsOrderly(h: Host, s: Script, infos: seq<ForeachInfo>, start: Machine.Run)
    requires FitScript(infos, s, false, Nil) && Fresh(start)
    ensures RunsOrderly(h, UnitOf(s, infos), start)
  {
    hide Exec, ShapedScript, PlanScript, UnitOf;
    MeetsIsOrderly(Mode(true, None, false, false, false), h, s, infos, start);
  }

  /** Every state of every run of a unit with one kind of iteration is orderly. */
  lemma ShapedIsOrderly(h: Host, s: Script, infos: seq<ForeachInfo>, start: Machine.Run, framed: bool)
    requires ShapedScript(infos, s) && OneFrame(infos, framed) && Fresh(start)
    ensures RunsOrderly(h, UnitOf(s, infos), start)
  {
    hide Exec, ShapedScript, UnitOf;
    MeetsIsOrderly(Mode(false, Some(framed), false, false, false), h, s, infos, start);
  }

  lemma MeetsIsOrderly(m: Mode, h: Host, s: Script, infos: seq<ForeachInfo>, start: Machine.Run)
    requires Meets(m, s, infos) && Fresh(start) && !m.bits && (m.exact || m.framed.Some?)
    ensures RunsOrderly(h, UnitOf(s, infos), start)
  {
    hide Reaches, ShapedScript, PlanScript, CmdsCode, Account, OrderlyAt, OpFits, RoleFits, Has;
    var u := UnitOf(s, infos);
    forall t | Reaches(h, u, start, t) ensures Orderly(u, t) {
      if t.Running? {
        ReachedHas(m, h, s, infos, start, t.pc, t.d);
        if t.pc < |u.ops| { FittingIsOrderly(m, u, Account(s, start.d), Depth(start.d.core.stack), t.pc, t.d,
            start.d.core.foreaches); }
        else { EndIsOrderly(m, s, u, start.d, t.pc, t.d); }
      }
    }
  }

  lemma EndIsOrderly(m: Mode, s: Script, u: Code, d0: State, pc: nat, d: State)
    requires pc == |u.ops| && |Account(s, d0)| == pc + 1 && Has(m, LayAt(Account(s, d0), pc), d, d0.core.foreaches)
    ensures OrderlyAt(u, OpAt(u.ops, pc), d)
  {
    hide SameRegions, Iterations, CmdsLays, LastSite;
  }

  lemma FittingIsOrderly(m: Mode, u: Code, lays: seq<Layout>, base: nat, pc: nat, d: State, fs0: List<ForeachFrame>)
    requires m.exact || (FramedAlike(u.infos, m.framed))
    requires pc < |u.ops| && |lays| == |u.ops| + 1 && Has(m, LayAt(lays, pc), d, fs0)
        && OpFits(m, u.infos, lays, base, pc, OpAt(u.ops, pc)) && RoleFits(m, u.ops, lays, pc)
    ensures OrderlyAt(u, OpAt(u.ops, pc), d)
  {
    hide SameRegions, AtLeast, Anchored, Escapes, Leads, PlainFits;
    var x, op := lays[pc], u.ops[pc];
    SameDepth(m.exact, d.core.bodies, x.bodies);
    if StartsPass(op) {
      InnerAnchor(m, lays, x);
      assert Leads(m, lays, pc, PassOf(x));
      PassDepth(m, lays, pc, x);
    }
    if IsNext(op) && !m.exact { FramedHead(m.framed, d.core.foreaches, fs0, Depth(x.frames)); }
  }

  lemma PassDepth(m: Mode, lays: seq<Layout>, pc: nat, x: Layout)
    requires x.loops.Cons? && pc < |lays| && LayAt(lays, pc) == x && Leads(m, lays, pc, PassOf(x))
        && x.loops.head.at.bodiesLen <= Depth(x.bodies)
    ensures Depth(x.bodies) == x.loops.head.at.bodiesLen && x.site == x.loops.head.at.owner
  {
    TruncateDepth(x.bodies, x.loops.head.at.bodiesLen);
  }

  lemma FramedHead(framed: Option<bool>, fs: List<ForeachFrame>, fs0: List<ForeachFrame>, n: nat)
    requires AtLeast(framed, fs, fs0, n) && n > 0 && framed.Some?
    ensures fs.Cons? && fs.head.framed == framed.value
  {
  }

  // ── negations ──

  /** Wherever a doubled negation decides a branch, `!` can be taken of what it
      stands over. */
  ghost predicate BranchesRead(h: Host, u: Code, s: Machine.Run) {
    forall pc: nat, d | Reaches(h, u, s, Running(pc, d)) && OpAt(u.ops, pc) == Un(Not)
        && FateAt(u.ops, pc + 1, true).IfBoolean? ::
      Boolish(h, Top(h, d.core))
  }

  /** A script whose doubled negations stand over 0/1 values or decide branches
      compiles to a unit whose negations fit, exactly when branches can be read. */
  lemma NegatedFits(h: Host, s: Script, infos: seq<ForeachInfo>, start: Machine.Run)
    requires ShapedScript(infos, s) && NegatedScript(s) && NotsAgree(h) && Fresh(start)
    ensures NotsFit(h, UnitOf(s, infos), start) <==> BranchesRead(h, UnitOf(s, infos), start)
  {
    hide Reaches, ShapedScript, CmdsCode, Account, Boolish, FateAt, NotsAgree, PlanScript, OpFits, Has;
    var u, m := UnitOf(s, infos), Mode(false, None, false, true, false);
    if NotsFit(h, u, start) {
      forall pc: nat, d | Reaches(h, u, start, Running(pc, d)) && OpAt(u.ops, pc) == Un(Not)
          && FateAt(u.ops, pc + 1, true).IfBoolean?
        ensures Boolish(h, Top(h, d.core))
      {
        assert NotFitsAt(h, u.ops, pc, d);
        BitIsBoolish(h, Top(h, d.core));
      }
    }
    if BranchesRead(h, u, start) {
      forall pc: nat, d | Reaches(h, u, start, Running(pc, d)) ensures NotFitsAt(h, u.ops, pc, d) {
        if OpAt(u.ops, pc) == Un(Not) {
          ReachedHas(m, h, s, infos, start, pc, d);
          BitOnTop(m, u, Account(s, start.d), Depth(start.d.core.stack), pc, d, start.d.core.foreaches);
        }
      }
    }
  }

  /** Where they stand over 0/1 values in conditions too, they fit: the script
      alone decides it. */
  lemma BitsFit(h: Host, s: Script, infos: seq<ForeachInfo>, start: Machine.Run)
    requires ShapedScript(infos, s) && BitScript(s) && NotsAgree(h) && Fresh(start)
    ensures NotsFit(h, UnitOf(s, infos), start)
  {
    hide Reaches, ShapedScript, CmdsCode, Account, Boolish, FateAt, NotsAgree, PlanScript, OpFits, Has;
    var u, m := UnitOf(s, infos), Mode(false, None, false, true, true);
    forall pc: nat, d | Reaches(h, u, start, Running(pc, d)) ensures NotFitsAt(h, u.ops, pc, d) {
      if OpAt(u.ops, pc) == Un(Not) {
        ReachedHas(m, h, s, infos, start, pc, d);
        BitOnTop(m, u, Account(s, start.d), Depth(start.d.core.stack), pc, d, start.d.core.foreaches);
      }
    }
  }

  predicate BitOver(c: Core) { c.stack.Cons? && IsBit(c.stack.head) }

  lemma BitIsBoolish(h: Host, v: Val)
    ensures IsBit(v) ==> Boolish(h, v)
  {
  }

  lemma BitOnTop(m: Mode, u: Code, lays: seq<Layout>, base: nat, pc: nat, d: State, fs0: List<ForeachFrame>)
    requires m.bits && pc < |lays| == |u.ops| + 1 && OpAt(u.ops, pc) == Un(Not) && Has(m, LayAt(lays, pc), d, fs0)
    requires OpFits(m, u.infos, lays, base, pc, OpAt(u.ops, pc)) && pc < |u.ops| && RoleFits(m, u.ops, lays, pc)
    ensures d.core.stack.Cons? && (BitOver(d.core) || !Reading(m.strict, FateAt(u.ops, pc + 1, true)).Never?)
  {
    hide SameRegions, Iterations, Anchored, Escapes, PlainFits, FateAt;
  }

  // ── flat scripts ──

  /** Where no `for` or `foreach` runs inside a next script, runs are tame. */
  lemma FlatIsTame(h: Host, s: Script, infos: seq<ForeachInfo>, start: Machine.Run)
    requires ShapedScript(infos, s) && FlatScript(s) && Fresh(start)
    ensures Tame(h, UnitOf(s, infos), start)
  {
    hide Reaches, ShapedScript, CmdsCode, Account, TameOn, PlanScript, OpFits, Has, Barrier;
    var u, m, lays := UnitOf(s, infos), Mode(false, None, true, false, false), Account(s, start.d);
    UnitAccounted(m, s, infos, start.d);
    forall pc | 0 <= pc < |u.ops| && StartsPass(u.ops[pc]) ensures Barrier(Before(u.ops, pc)) {
      assert RoleFits(m, u.ops, lays, pc);
    }
    forall pc: nat, d | Reaches(h, u, start, Running(pc, d)) ensures TameAt(u.ops, pc, d) {
      ReachedHas(m, h, s, infos, start, pc, d);
      if pc < |u.ops| { HasTame(m, u.ops, pc, lays[pc], d, start.d.core.foreaches); }
      else { EndIsTame(m, s, u, start.d, pc, d); }
    }
  }

  lemma HasTame(m: Mode, ops: seq<OpCode>, pc: nat, x: Layout, d: State, fs0: List<ForeachFrame>)
    requires Has(m, x, d, fs0) && TameOn(ops, pc, x.bodies, x.loops)
    ensures TameAt(ops, pc, d)
  {
    hide SameRegions, Iterations, NoNext, Adjacent;
    SameDepth(m.exact, d.core.bodies, x.bodies);
    SameNoNext(m.exact, d.core.bodies, x.bodies, x.loops);
  }

  lemma EndIsTame(m: Mode, s: Script, u: Code, d0: State, pc: nat, d: State)
    requires pc == |u.ops| && |Account(s, d0)| == pc + 1 && Has(m, LayAt(Account(s, d0), pc), d, d0.core.foreaches)
    ensures TameAt(u.ops, pc, d)
  {
    hide SameRegions, Iterations, CmdsLays, LastSite;
  }
}

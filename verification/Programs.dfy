/** Whole units: a compiled script does what the script means. */
module Programs {
  import opened Options
  import opened Opcodes
  import opened Machine
  import opened Discipline
  import opened Syntax
  import opened Codegen
  import opened Evaluate
  import opened Fitting
  import opened Compiled
  import opened Walks

  /** The outcome shows the result; an error also shows a trail. */
  ghost predicate Shows(o: Outcome, w: World, r: Res) {
    match r
    case Gives(v) => o.Value? && o.v == v && o.left.w == w
    case Breaks(f) => o.Failed? && o.f == f && o.w == w
    case Continues(f) => o.Failed? && o.f == f && o.w == w
    case Halts(f) => o.Failed? && o.f == f && o.w == w
  }

  ghost predicate ShownBy(s: Machine.Run, w: World, r: Res) { s.Halted? && Shows(s.o, w, r) }

  /** One evaluation, one run: they end alike, or both go on past `fuel`. */
  lemma UnitRuns(h: Host, s: Script, infos: seq<ForeachInfo>, start: Machine.Run, fuel: nat) returns (n: nat)
    requires FitScript(infos, s, false, Nil) && Begun(start)
    ensures var u := UnitOf(s, infos);
      match ScriptMeans(h, s, WorldOf(start), fuel)
      case None => Steps(h, u, start, n).Running? && n >= fuel
      case Some(r) => ShownBy(Steps(h, u, start, n), r.0, r.1)
  {
    hide Step, ScriptMeans, CmdsMean, CmdsCode, FitScript;
    var u, d := UnitOf(s, infos), start.d;
    if s.Done? {
      EmptyUnit(h, s, infos, start, fuel);
      n := 1;
    } else {
      assert u.ops[0..0 + |u.ops|] == u.ops;
      n := CmdsRun(h, u, Nil, false, s, 0, d, fuel);
      var got := ScriptMeans(h, s, d.core.w, fuel);
      assert got == CmdsMean(h, s, d.core.w, fuel) by { ScriptIsCmds(h, s, d.core.w, fuel); }
      if got.Some? && got.value.1.Gives? {
        var t := Steps(h, u, start, n);
        Finishes(h, u, t.d);
        StepsAdd(h, u, start, n, 1);
        n := n + 1;
      }
    }
  }

  lemma ScriptIsCmds(h: Host, s: Script, w: World, fuel: nat)
    requires s.Then?
    ensures ScriptMeans(h, s, w, fuel) == CmdsMean(h, s, w, fuel)
  {
  }

  lemma EmptyUnit(h: Host, s: Script, infos: seq<ForeachInfo>, start: Machine.Run, fuel: nat)
    requires s.Done? && Begun(start)
    ensures var u := UnitOf(s, infos); var t := Steps(h, u, start, 1);
      && t == Halted(Outcome.Value(Blank(h), StateOf(start).core))
      && ScriptMeans(h, s, WorldOf(start), fuel) == Some((WorldOf(start), Gives(Blank(h))))
  {
    hide Exec;
    Finishes(h, UnitOf(s, infos), start.d);
  }

  /** The compiled unit ends with an outcome exactly when the script evaluates
      to the result it shows; so it runs forever exactly when the script does. */
  lemma CompiledMeaning(h: Host, s: Script, infos: seq<ForeachInfo>, start: Machine.Run, o: Outcome)
    requires FitScript(infos, s, false, Nil) && Begun(start)
    ensures (exists t :: Ends(h, UnitOf(s, infos), start, t) && Same(t, o))
       <==> (exists fuel: nat :: Evaluates(h, s, WorldOf(start), fuel, o))
  {
    hide ScriptMeans, Step, UnitOf, FitScript;
    var u, w := UnitOf(s, infos), start.d.core.w;
    if t :| Ends(h, u, start, t) && Same(t, o) {
      var m: nat :| Steps(h, u, start, m) == Halted(t);
      var n := UnitRuns(h, s, infos, start, m + 1);
      if ScriptMeans(h, s, w, m + 1).None? { EndsEarlier(h, u, start, m, n); }
      OneEnd(h, u, start, m, n);
      assert Evaluates(h, s, w, m + 1, o);
    }
    if fuel: nat :| Evaluates(h, s, w, fuel, o) {
      var n := UnitRuns(h, s, infos, start, fuel);
      var t := Steps(h, u, start, n).o;
      assert Ends(h, u, start, t) && Same(t, o);
    }
  }

  /** Equal but for the trail of an error and what is left on the stacks. */
  ghost predicate Same(a: Outcome, b: Outcome) {
    match (a, b)
    case (Value(v, c), Value(v1, c1)) => v == v1 && c.w == c1.w
    case (Failed(f, w, _), Failed(f1, w1, _)) => f == f1 && w == w1
    case _ => false
  }

  ghost predicate Evaluates(h: Host, s: Script, w: World, fuel: nat, o: Outcome) {
    var r := ScriptMeans(h, s, w, fuel);
    r.Some? && Shows(o, r.value.0, r.value.1)
  }

  /** A unit that ends by itself has left exactly one value. */
  lemma OneValueLeft(h: Host, s: Script, infos: seq<ForeachInfo>, start: Machine.Run, fuel: nat, w: World, v: Val)
    returns (n: nat)
    requires s.Then? && FitScript(infos, s, false, Nil) && Begun(start)
    requires ScriptMeans(h, s, WorldOf(start), fuel) == Some((w, Gives(v)))
    ensures var u := UnitOf(s, infos); var d := StateOf(Steps(h, u, start, n));
      && Steps(h, u, start, n) == Now(|u.ops|, d) && d.core.stack == Cons(v, Nil)
      && d.core.bodies == StateOf(start).core.bodies && d.loops.Nil?
  {
    hide Step, ScriptMeans, CmdsMean, CmdsCode, FitScript;
    var u := UnitOf(s, infos);
    assert u.ops[0..0 + |u.ops|] == u.ops;
    ScriptIsCmds(h, s, start.d.core.w, fuel);
    n := CmdsRun(h, u, Nil, false, s, 0, start.d, fuel);
  }
}

/** Compiled code does what its script means: by induction over scripts and
    fuel, from every state that fits, in orderly steps. */
module Compiled {
  import opened Options
  import opened Opcodes
  import opened Machine
  import opened Syntax
  import opened Codegen
  import opened Evaluate
  import opened Places
  import opened Arrivals
  import opened Instructions
  import opened Fitting
  import opened LoopSteps

  // ── values ──

  /** An instruction that answers over the value on top, or without one. */
  lemma EndsWith(h: Host, u: Code, start: Machine.Run, n: nat, ctx: List<bool>, d: State, pc: nat, d1: State,
          base: Core,
                 r: (World, Reply), keep: bool, fuel: nat)
    requires Steps(h, u, start, n) == Running(pc, d1)
    requires pc < |u.ops| && Fits(ctx, d) && Fits(ctx, d1) && d1.loops == d.loops
    requires Exec(h, u.infos, OpAt(u.ops, pc), d1) == Answer(base, r, d1.loops)
    requires base == d.core.(w := base.w, site := base.site) && (keep ==> base.site == d.core.site)
    ensures Runs(h, u, start, ctx, d, pc + 1, keep, Some((r.0, OfReply(r.1))), fuel, n + 1)
  {
    hide Exec, Arrives, Fits, Answer;
    AnswerArrives(h, u, ctx, pc, d1, d, base, r, keep);
    var t := After(pc, Answer(base, r, d1.loops));
    Chain(h, u, start, n, Running(pc, d1), 1, t);
    RunsDone(h, u, start, n + 1, t, ctx, d, pc + 1, keep, r.0, OfReply(r.1), fuel);
  }

  function Holding(d: State, w: World,
          v: Val): State { State(d.core.(w := w, stack := Cons(v, d.core.stack)), d.loops) }

  lemma HoldingFits(ctx: List<bool>, d: State, w: World, v: Val)
    requires Fits(ctx, d)
    ensures Fits(ctx, Holding(d, w, v))
    ensures Alike(Holding(d, w, v).core, d.core.(w := w), d.loops)
  {
    CtxPush(ctx, d.core.bodies, d.core.stack, d.loops, v);
  }

  lemma HoldingAlike(ctx: List<bool>, d: State, w: World, v: Val, w1: World)
    requires Fits(ctx, d)
    ensures Alike(Holding(d, w, v).core.(w := w1), d.core.(w := w1), d.loops)
  {
    CtxPush(ctx, d.core.bodies, d.core.stack, d.loops, v);
  }

  lemma PushStep(h: Host, u: Code, ctx: List<bool>, d: State, at: nat, lit: Lit)
    requires Fits(ctx, d) && at < |u.ops| && OpAt(u.ops, at) == Push(lit)
    ensures Steps(h, u, Running(at, d), 1) == Now(at + 1, Holding(d, d.core.w, LitVal(h, lit)))
  {
    hide Exec;
    PushRuns(h, u.infos, lit, d);
    OneStep(h, u, at, d);
  }

  lemma PushWord(h: Host, u: Code, ctx: List<bool>, d: State, at: nat, lit: Lit, fuel: nat)
    requires Fits(ctx, d) && at < |u.ops| && OpAt(u.ops, at) == Push(lit)
    ensures Runs(h, u, Running(at, d), ctx, d, at + 1, true, Some((d.core.w, Gives(LitVal(h, lit)))), fuel, 1)
  {
    hide Exec;
    PushStep(h, u, ctx, d, at, lit);
    RunsDone(h, u, Running(at, d), 1, Running(at + 1, Holding(d, d.core.w, LitVal(h, lit))), ctx, d, at + 1, true,
             d.core.w, Gives(LitVal(h, lit)), fuel);
  }

  lemma ReadWord(h: Host, u: Code, ctx: List<bool>, d: State, at: nat, x: Loc, fuel: nat)
    requires Fits(ctx, d) && at < |u.ops| && OpAt(u.ops, at) == Load(x)
    ensures Runs(h, u, Running(at, d), ctx, d, at + 1, true, Some(Ask(h, d.core.w, Request.Read(x))), fuel, 1)
  {
    hide Exec, Fits;
    LoadRuns(h, u.infos, x, d);
    NoStep(h, u, Running(at, d));
    EndsWith(h, u, Running(at, d), 0, ctx, d, at, d, d.core, h.ask(d.core.w, Request.Read(x)), true, fuel);
  }

  /** A value handed to the interpreter: after it, one request. */
  lemma HandOver(h: Host, u: Code, start: Machine.Run, n: nat, ctx: List<bool>, d: State, mid: nat, w: World, v: Val,
          q: Request, keep: bool, fuel: nat)
    requires Steps(h, u, start, n) == Running(mid, Holding(d, w, v)) && Fits(ctx, d)
    requires mid < |u.ops|
    requires || (OpAt(u.ops, mid) == EvalScript && q == RunScript(v))
        || (OpAt(u.ops, mid) == EvalExpr && q == RunExpr(v))
             || (OpAt(u.ops, mid).Lappend? && q == Request.Extend(OpAt(u.ops, mid).x, v))
    ensures Runs(h, u, start, ctx, d, mid + 1, keep, Some(Ask(h, w, q)), fuel, n + 1)
  {
    hide Exec, Fits;
    var d1 := Holding(d, w, v);
    HoldingFits(ctx, d, w, v);
    if u.ops[mid].EvalScript? { EvalScriptRuns(h, u.infos, d1); }
    else if u.ops[mid].EvalExpr? { EvalExprRuns(h, u.infos, d1); }
    else { LappendRuns(h, u.infos, u.ops[mid].x, d1); }
    EndsWith(h, u, start, n, ctx, d, mid, d1, d.core.(w := w), h.ask(w, q), keep, fuel);
  }

  /** What a run that gave a value has taken. */
  lemma Gave(h: Host, u: Code, start: Machine.Run, ctx: List<bool>, d: State, goal: nat, got: Got, fuel: nat, n: nat)
    requires Runs(h, u, start, ctx, d, goal, true, got, fuel, n) && got.Some? && got.value.1.Gives?
    ensures Steps(h, u, start, n) == Running(goal, Holding(d, got.value.0, got.value.1.v))
  {
    hide Exec;
  }

  // ── bracketed scripts ──

  /** A script in a region of its own, closed behind it, is like a word. */
  lemma CloseRegion(h: Host, u: Code, start: Machine.Run, ctx: List<bool>, d: State, d1: State, r: Region, end: nat,
          goal: nat,
                    got: Got, fuel: nat, n: nat) returns (m: nat)
    requires Fits(ctx, d) && d1 == State(d.core.(w := d1.core.w, bodies := Cons(r, d.core.bodies)), d.loops)
    requires !r.Next? && r.site == d.core.site
    requires Runs(h, u, start, ctx, d1, end, false, got, fuel, n)
    requires end < |u.ops| && ((OpAt(u.ops, end) == SubEnd && goal == end + 1) || OpAt(u.ops, end) == Jump(goal))
    ensures Runs(h, u, start, ctx, d, goal, true, got, fuel, m) && m >= n
  {
    hide Exec;
    CtxOpen(ctx, d.core.bodies, d.core.stack, d.loops, r);
    if got.Some? && got.value.1.Gives? {
      var (w, v) := (got.value.0, got.value.1.v);
      var t := Steps(h, u, start, n);
      CtxPush(ctx, d1.core.bodies, d1.core.stack, d.loops, v);
      if u.ops[end] == SubEnd { SubEndRuns(h, u.infos, t.d); } else { JumpRuns(h, u.infos, goal, t.d); }
      OneStep(h, u, end, t.d);
      var s := Running(goal, Holding(d, w, v));
      Chain(h, u, start, n, t, 1, s);
      m := n + 1;
      RunsDone(h, u, start, m, s, ctx, d, goal, true, w, Gives(v), fuel);
    } else {
      m := n;
      RunsOutward(h, u, start, ctx, d1, end, false, d, goal, true, got, fuel, n);
    }
  }

  lemma MarkStep(h: Host, u: Code, ctx: List<bool>, d: State, at: nat, m: MarkOp, r: Region)
    requires Fits(ctx, d) && at < |u.ops| && OpAt(u.ops, at) == Mark(m) && !m.NextMark?
    requires Marked(d.core, m) == Opened(d.core, r) && !r.Next?
    ensures var d1 := State(Opened(d.core, r), d.loops);
      Steps(h, u, Running(at, d), 1) == Now(at + 1, d1) && Fits(ctx, d1)
  {
    hide Exec;
    MarkRuns(h, u.infos, m, d);
    OneStep(h, u, at, d);
    CtxOpen(ctx, d.core.bodies, d.core.stack, d.loops, r);
  }

  /** Marked script, from its mark on. */
  lemma BracketRuns(h: Host, u: Code, ctx: List<bool>, next: bool, s: Script, m: MarkOp, r: Region, at: nat, d: State,
          fuel: nat) returns (n: nat)
    requires Fits(ctx, d) && FitScript(u.infos, s, next, ctx)
    requires Placed(u, at, [Mark(m)] + ScriptCode(s, at + 1, next) + [SubEnd])
    requires !m.NextMark? && Marked(d.core, m) == Opened(d.core, r) && !r.Next? && r.site == d.core.site
    ensures Runs(h, u, Running(at, d), ctx, d, at + |ScriptCode(s, at + 1, next)| + 2, true,
        ScriptMeans(h, s, d.core.w, fuel), fuel, n)
    decreases fuel, s, 4
  {
    hide Exec, Steps, ScriptMeans, ScriptCode, ShapedScript, PlanScript, Runs, Marked, Fits;
    var code := ScriptCode(s, at + 1, next);
    PlacedSplit(u, at, [Mark(m)] + code, [SubEnd]);
    PlacedSplit(u, at, [Mark(m)], code);
    PlacedAt(u, at, [Mark(m)], 0);
    PlacedAt(u, at + 1 + |code|, [SubEnd], 0);
    MarkStep(h, u, ctx, d, at, m, r);
    var d1 := State(Opened(d.core, r), d.loops);
    var k := ScriptRuns(h, u, ctx, next, s, at + 1, d1, fuel);
    var got := ScriptMeans(h, s, d.core.w, fuel);
    var j := CloseRegion(h, u, Running(at + 1, d1), ctx, d, d1, r, at + 1 + |code|, at + 2 + |code|, got, fuel, k);
    n := 1 + j;
    RunsAfter(h, u, Running(at, d), 1, Running(at + 1, d1), ctx, d, at + |code| + 2, true, got, fuel, fuel, j);
  }

  // ── scripts ──

  lemma {:induction false} ScriptRuns(h: Host, u: Code, ctx: List<bool>, next: bool, s: Script, at: nat, d: State,
          fuel: nat) returns (n: nat)
    requires Fits(ctx, d) && FitScript(u.infos, s, next, ctx) && Placed(u, at, ScriptCode(s, at, next))
    ensures Runs(h, u, Running(at, d), ctx, d, at + |ScriptCode(s, at, next)|, false,
        ScriptMeans(h, s, d.core.w, fuel), fuel, n)
    decreases fuel, s, 3
  {
    hide Exec, Steps, Runs, Fits, CmdsCode, CmdsMean;
    if s.Done? {
      PlacedAt(u, at, [Push(Empty)], 0);
      PushWord(h, u, ctx, d, at, Empty, fuel);
      n := 1;
      Loosen(h, u, Running(at, d), ctx, d, at + 1, Some((d.core.w, Gives(LitVal(h, Empty)))), fuel, 1);
    } else {
      n := CmdsRun(h, u, ctx, next, s, at, d, fuel);
    }
  }

  lemma Loosen(h: Host, u: Code, start: Machine.Run, ctx: List<bool>, d: State, goal: nat, got: Got, fuel: nat, n: nat)
    requires Runs(h, u, start, ctx, d, goal, true, got, fuel, n)
    ensures Runs(h, u, start, ctx, d, goal, false, got, fuel, n)
  {
    hide Exec;
  }

  /** From one command to the next: its value is dropped. */
  lemma NextCommand(h: Host, u: Code, start: Machine.Run, ctx: List<bool>, d: State, mid: nat, w: World, v: Val,
          fuel: nat, n: nat) returns (d1: State)
    requires Fits(ctx, d) && Runs(h, u, start, ctx, d, mid, false, Some((w, Gives(v))), fuel, n)
    requires mid < |u.ops| && OpAt(u.ops, mid) == Pop
    ensures Steps(h, u, start, n + 1) == Now(mid + 1, d1) && Fits(ctx, d1)
    ensures d1 == State(d.core.(w := w, site := d1.core.site), d.loops)
  {
    hide Exec;
    var t := Steps(h, u, start, n);
    CtxPush(ctx, d.core.bodies, d.core.stack, d.loops, v);
    PopRuns(h, u.infos, t.d);
    OneStep(h, u, mid, t.d);
    d1 := State(d.core.(w := w, site := t.d.core.site), d.loops);
    Chain(h, u, start, n, t, 1, Running(mid + 1, d1));
  }

  /** A run seen from a state that differs in world and site only. */
  lemma Rebase(h: Host, u: Code, start: Machine.Run, ctx: List<bool>, d1: State, d: State, goal: nat, got: Got,
          fuel: nat, n: nat)
    requires Runs(h, u, start, ctx, d1, goal, false, got, fuel, n)
    requires d1 == State(d.core.(w := d1.core.w, site := d1.core.site), d.loops)
    ensures Runs(h, u, start, ctx, d, goal, false, got, fuel, n)
  {
    hide Steps, BreakAt, ContinueAt;
    if got.Some? && !got.value.1.Gives? {
      Outward(ctx, d, d1, goal, goal, false, false, got.value.0, got.value.1, Steps(h, u, start, n));
    }
  }

  lemma {:induction false} CmdsRun(h: Host, u: Code, ctx: List<bool>, next: bool, s: Script, at: nat, d: State,
          fuel: nat) returns (n: nat)
    requires s.Then? && Fits(ctx, d) && FitScript(u.infos, s, next, ctx) && Placed(u, at, CmdsCode(s, at, next))
    ensures Runs(h, u, Running(at, d), ctx, d, at + |CmdsCode(s, at, next)|, false, CmdsMean(h, s, d.core.w, fuel),
        fuel, n)
    decreases fuel, s, 2
  {
    hide Exec, Steps, Runs, Fits, CmdCode, CmdMeans, ShapedForm, PlanForm, Placed;
    var first := CmdCode(s.cmd, at, next);
    if s.rest.Done? {
      n := CmdRuns(h, u, ctx, next, s.cmd, at, d, fuel);
    } else {
      var rest := CmdsCode(s.rest, at + |first| + 1, next);
      PlacedSplit(u, at, first + [Pop], rest);
      PlacedSplit(u, at, first, [Pop]);
      n := CmdRuns(h, u, ctx, next, s.cmd, at, d, fuel);
      var got := CmdMeans(h, s.cmd, d.core.w, fuel);
      if got.Some? && got.value.1.Gives? {
        n := RestRuns(h, u, ctx, next, s, at, d, got.value.0, got.value.1.v, fuel, n);
      } else {
        Elsewhere(h, u, Running(at, d), ctx, d, at + |first|, at + |CmdsCode(s, at, next)|, false, false, got, fuel, n);
      }
    }
  }

  /** After a command that gave a value, the others. */
  lemma {:induction false} RestRuns(h: Host, u: Code, ctx: List<bool>, next: bool, s: Script, at: nat, d: State,
          w: World, v: Val, fuel: nat, m: nat) returns (n: nat)
    requires s.Then? && s.rest.Then? && Fits(ctx, d) && FitScript(u.infos, s.rest, next, ctx)
    requires var mid := at + |CmdCode(s.cmd, at, next)|;
      && Placed(u, mid, [Pop]) && Placed(u, mid + 1, CmdsCode(s.rest, mid + 1, next))
      && Runs(h, u, Running(at, d), ctx, d, mid, false, Some((w, Gives(v))), fuel, m)
    ensures Runs(h, u, Running(at, d), ctx, d, at + |CmdsCode(s, at, next)|, false, CmdsMean(h, s.rest, w, fuel),
        fuel, n)
    decreases fuel, s, 1
  {
    hide Exec, Steps, Runs, Fits, CmdCode, CmdsMean, ShapedForm, PlanForm, Placed;
    var mid := at + |CmdCode(s.cmd, at, next)|;
    var goal := mid + 1 + |CmdsCode(s.rest, mid + 1, next)|;
    PlacedAt(u, mid, [Pop], 0);
    var d1 := NextCommand(h, u, Running(at, d), ctx, d, mid, w, v, fuel, m);
    var k := CmdsRun(h, u, ctx, next, s.rest, mid + 1, d1, fuel);
    var all := CmdsMean(h, s.rest, w, fuel);
    Rebase(h, u, Running(mid + 1, d1), ctx, d1, d, goal, all, fuel, k);
    RunsAfter(h, u, Running(at, d), m + 1, Running(mid + 1, d1), ctx, d, goal, false, all, fuel, fuel, k);
    n := m + 1 + k;
  }

  /** Without a value the goal does not matter. */
  lemma Elsewhere(h: Host, u: Code, start: Machine.Run, ctx: List<bool>, d: State, goal: nat, other: nat, keep: bool,
          keep1: bool, got: Got, fuel: nat, n: nat)
    requires Runs(h, u, start, ctx, d, goal, keep, got, fuel, n) && (got.Some? ==> !got.value.1.Gives?)
    ensures Runs(h, u, start, ctx, d, other, keep1, got, fuel, n)
  {
    hide Exec;
  }

  // ── words ──

  lemma {:induction false} WordRuns(h: Host, u: Code, ctx: List<bool>, next: bool, x: Word, at: nat, d: State,
          fuel: nat) returns (n: nat)
    requires Fits(ctx, d) && FitWord(u.infos, x, next, ctx) && Placed(u, at, WordCode(x, at, next))
    ensures Runs(h, u, Running(at, d), ctx, d, at + |WordCode(x, at, next)|, true, WordMeans(h, x, d.core.w, fuel),
        fuel, n)
    decreases fuel, x, 5
  {
    hide Exec, Steps, Runs, Fits, ScriptCode, ScriptMeans, ShapedScript, PlanScript, WordsCode, WordsMean, ShapedWords,
        PlanWords;
    match x
    case Text(lit) =>
      PlacedAt(u, at, [Push(lit)], 0);
      PushWord(h, u, ctx, d, at, lit, fuel);
      n := 1;
    case Var(l) =>
      PlacedAt(u, at, [Load(l)], 0);
      ReadWord(h, u, ctx, d, at, l, fuel);
      n := 1;
    case Eval(lit) =>
      PlacedAt(u, at, [Push(lit), EvalScript], 0);
      PlacedAt(u, at, [Push(lit), EvalScript], 1);
      PushStep(h, u, ctx, d, at, lit);
      HandOver(h, u, Running(at, d), 1, ctx, d, at + 1, d.core.w, LitVal(h, lit), RunScript(LitVal(h, lit)), true,
          fuel);
      n := 2;
    case Sugar(lit) =>
      PlacedAt(u, at, [Push(lit), EvalExpr], 0);
      PlacedAt(u, at, [Push(lit), EvalExpr], 1);
      PushStep(h, u, ctx, d, at, lit);
      HandOver(h, u, Running(at, d), 1, ctx, d, at + 1, d.core.w, LitVal(h, lit), RunExpr(LitVal(h, lit)), true, fuel);
      n := 2;
    case Cat(parts) => n := CatRuns(h, u, ctx, next, parts, at, d, fuel);
    case Bracket(s) =>
      n := BracketRuns(h, u, ctx, next, s, SubMark, Region.Sub(d.core.site), at, d, fuel);
  }

  /** Words run one after another: their values, or the first completion that
      is not a value. */
  ghost predicate RunsMany(h: Host, u: Code, start: Machine.Run, ctx: List<bool>, d: State, goal: int,
          got: Option<(World, Vals)>, fuel: int, n: int) {
    var t := Steps(h, u, start, n);
    match got
       case None => t.Running? && n >= fuel
       case Some(r) =>
         match r.1
         case Many(vs) => t.Running? && t.pc == goal && t.d == Stacked(d, r.0, vs)
         case Fell(x) => n > 0 && !x.Gives? && Arrives(ctx, d, goal, true, r.0, x, t)
  }

  function Stacked(d: State, w: World, vs: seq<Val>): State {
    State(d.core.(w := w, stack := PushAll(d.core.stack, vs)), d.loops)
  }

  lemma StackedFits(ctx: List<bool>, d: State, w: World, vs: seq<Val>)
    requires Fits(ctx, d)
    ensures Fits(ctx, Stacked(d, w, vs))
  {
    CtxPushAll(ctx, d.core.bodies, d.core.stack, d.loops, vs);
  }

  lemma MoreWords(h: Host, u: Code, start: Machine.Run, m: nat, ctx: List<bool>, d: State, w: World, v: Val, mid: nat,
          goal: nat,
                  got: Option<(World, Vals)>, all: Option<(World, Vals)>, fuel: nat, n: nat)
    requires Fits(ctx, d) && Steps(h, u, start, m) == Running(mid, Holding(d, w, v))
    requires RunsMany(h, u, Running(mid, Holding(d, w, v)), ctx, Holding(d, w, v), goal, got, fuel, n)
    requires all == match got
                    case None => None
                    case Some(b) => Some((b.0, match b.1 case Many(vs) => Many([v] + vs) case Fell(f) => Fell(f)))
    ensures RunsMany(h, u, start, ctx, d, goal, all, fuel, m + n)
  {
    hide Steps, Step, Fits, Arrives, Alike;
    var d1 := Holding(d, w, v);
    var t := Steps(h, u, Running(mid, d1), n);
    assert Steps(h, u, Running(mid, d1), n) == t;
    Chain(h, u, start, m, Running(mid, d1), n, t);
    if got.Some? {
      match got.value.1
      case Many(vs) => PushAllFront(d.core.stack, v, vs);
      case Fell(x) =>
        HoldingAlike(ctx, d, w, v, got.value.0);
        Outward(ctx, d, d1, goal, goal, true, true, got.value.0, x, t);
    }
  }

  lemma NoWordsRun(h: Host, u: Code, ctx: List<bool>, d: State, at: nat, fuel: nat)
    ensures RunsMany(h, u, Running(at, d), ctx, d, at, Some((d.core.w, Many([]))), fuel, 0)
  {
    hide Exec;
  }

  lemma {:induction false} WordsRun(h: Host, u: Code, ctx: List<bool>, next: bool, ws: Words, at: nat, d: State,
          fuel: nat) returns (n: nat)
    requires Fits(ctx, d) && FitWords(u.infos, ws, next, ctx) && Placed(u, at, WordsCode(ws, at, next))
    ensures RunsMany(h, u, Running(at, d), ctx, d, at + |WordsCode(ws, at, next)|, WordsMean(h, ws, d.core.w, fuel),
        fuel, n)
    decreases fuel, ws, 5
  {
    hide Exec, Runs, Fits, WordCode, WordMeans, ShapedWord, PlanWord, Steps, RunsMany, Alike;
    if ws.NoWords? {
      n := 0;
      NoWordsRun(h, u, ctx, d, at, fuel);
    } else {
      var first := WordCode(ws.w, at, next);
      var rest := WordsCode(ws.rest, at + |first|, next);
      PlacedSplit(u, at, first, rest);
      var m := WordRuns(h, u, ctx, next, ws.w, at, d, fuel);
      var got := WordMeans(h, ws.w, d.core.w, fuel);
      if got.Some? && got.value.1.Gives? {
        var d1 := Holding(d, got.value.0, got.value.1.v);
        Gave(h, u, Running(at, d), ctx, d, at + |first|, got, fuel, m);
        HoldingFits(ctx, d, got.value.0, got.value.1.v);
        var k := WordsRun(h, u, ctx, next, ws.rest, at + |first|, d1, fuel);
        MoreWords(h, u, Running(at, d), m, ctx, d, got.value.0, got.value.1.v, at + |first|, at + |first| + |rest|,
                  WordsMean(h, ws.rest, got.value.0, fuel), WordsMean(h, ws, d.core.w, fuel), fuel, k);
        n := m + k;
      } else {
        n := m;
        OneFell(h, u, Running(at, d), ctx, d, at + |first|, at + |first| + |rest|, got, fuel, n);
      }
    }
  }

  lemma OneFell(h: Host, u: Code, start: Machine.Run, ctx: List<bool>, d: State, goal: nat, other: nat, got: Got,
          fuel: nat, n: nat)
    requires Runs(h, u, start, ctx, d, goal, true, got, fuel, n) && (got.Some? ==> !got.value.1.Gives?)
    ensures RunsMany(h, u, start, ctx, d, other, if got.None? then None else Some((got.value.0, Fell(got.value.1))),
        fuel, n)
  {
    hide Steps;
  }

  /** What ran into a completion that is no value is over. */
  lemma ManyFell(h: Host, u: Code, start: Machine.Run, ctx: List<bool>, d: State, goal: nat, other: nat, keep: bool,
                 got: Option<(World, Vals)>, fuel: nat, n: nat)
    requires RunsMany(h, u, start, ctx, d, goal, got, fuel, n) && (got.Some? ==> got.value.1.Fell?)
    ensures Runs(h, u, start, ctx, d, other, keep, if got.None? then None else Some((got.value.0, got.value.1.r)),
        fuel, n)
  {
    hide Steps;
  }

  lemma {:induction false} CountWords(h: Host, ws: Words, w: World, fuel: nat)
    requires var r := WordsMean(h, ws, w, fuel); r.Some? && r.value.1.Many?
    ensures |WordsMean(h, ws, w, fuel).value.1.vs| == Count(ws)
    decreases ws
  {
    if ws.More? {
      var a := WordMeans(h, ws.w, w, fuel);
      CountWords(h, ws.rest, a.value.0, fuel);
    }
  }

  lemma CatRuns(h: Host, u: Code, ctx: List<bool>, next: bool, parts: Words, at: nat, d: State, fuel: nat)
    returns (n: nat)
    requires Fits(ctx, d) && FitWords(u.infos, parts, next, ctx)
    requires Placed(u, at, WordsCode(parts, at, next) + [Concat(Count(parts))])
    ensures Runs(h, u, Running(at, d), ctx, d, at + |WordsCode(parts, at, next)| + 1, true,
        WordMeans(h, Cat(parts), d.core.w, fuel), fuel, n)
    decreases fuel, parts, 6
  {
    hide Exec, Fits, WordsCode, WordsMean, ShapedWords, PlanWords, Arrives, Runs, WordMeans, Steps;
    CatMeans(h, parts, d.core.w, fuel);
    var code := WordsCode(parts, at, next);
    var mid := at + |code|;
    PlacedSplit(u, at, code, [Concat(Count(parts))]);
    PlacedAt(u, mid, [Concat(Count(parts))], 0);
    n := WordsRun(h, u, ctx, next, parts, at, d, fuel);
    var got := WordsMean(h, parts, d.core.w, fuel);
    if got.Some? && got.value.1.Many? {
      var (w, vs) := (got.value.0, got.value.1.vs);
      var d1 := Stacked(d, w, vs);
      CountWords(h, parts, d.core.w, fuel);
      TakePushed(d.core.stack, vs);
      StackedFits(ctx, d, w, vs);
      assert Steps(h, u, Running(at, d), n) == Running(mid, d1)
          by { ManyTook(h, u, Running(at, d), ctx, d, mid, w, vs, fuel, n); }
      ConcatRuns(h, u.infos, Count(parts), d1);
      OneStep(h, u, mid, d1);
      var t := Running(mid + 1, Holding(d, w, h.concat(vs)));
      Chain(h, u, Running(at, d), n, Running(mid, d1), 1, t);
      n := n + 1;
      ValueArrives(ctx, d, mid + 1, w, h.concat(vs));
      RunsDone(h, u, Running(at, d), n, t, ctx, d, mid + 1, true, w, Gives(h.concat(vs)), fuel);
    } else {
      ManyFell(h, u, Running(at, d), ctx, d, mid, mid + 1, true, got, fuel, n);
    }
  }

  lemma CatMeans(h: Host, parts: Words, w: World, fuel: nat)
    ensures var got := WordsMean(h, parts, w, fuel);
      WordMeans(h, Cat(parts), w, fuel)
      == match got
         case None => None
         case Some(r) => match r.1 case Fell(x) => Some((r.0, x)) case Many(vs) => Some((r.0, Gives(h.concat(vs))))
  {
    hide WordsMean;
  }

  lemma ValueArrives(ctx: List<bool>, d: State, goal: nat, w: World, v: Val)
    ensures Arrives(ctx, d, goal, true, w, Gives(v), Running(goal, Holding(d, w, v)))
  {
  }

  lemma {:induction false} CmdRuns(h: Host, u: Code, ctx: List<bool>, next: bool, c: Cmd, at: nat, d: State, fuel: nat)
    returns (n: nat)
    requires Fits(ctx, d) && FitForm(u.infos, c.form, next, ctx) && Placed(u, at, CmdCode(c, at, next))
    ensures Runs(h, u, Running(at, d), ctx, d, at + |CmdCode(c, at, next)|, false, CmdMeans(h, c, d.core.w, fuel),
        fuel, n)
    decreases fuel, c, 3
  {
    hide Exec, Steps, Runs, Fits, FormCode, FormMeans, ShapedForm, PlanForm;
    var code := FormCode(c.form, at + 1, next);
    PlacedSplit(u, at, [BeginCmd(c.site)], code);
    PlacedAt(u, at, [BeginCmd(c.site)], 0);
    var goal := at + 1 + |code|;
    BeginRuns(h, u.infos, c.site, d);
    OneStep(h, u, at, d);
    var r := h.ask(d.core.w, Begin(c.site));
    if r.1.Ok? {
      var d1 := State(d.core.(w := r.0, site := c.site), d.loops);
      SameFits(ctx, d, d1);
      var k := FormRuns(h, u, ctx, next, c.form, at + 1, d1, fuel);
      var got := FormMeans(h, c.form, r.0, fuel);
      Rebase(h, u, Running(at + 1, d1), ctx, d1, d, goal, got, fuel, k);
      n := 1 + k;
      RunsAfter(h, u, Running(at, d), 1, Running(at + 1, d1), ctx, d, goal, false, got, fuel, fuel, k);
    } else {
      n := 1;
      BeginFaults(ctx, d, goal, r.0, r.1.f);
      RunsDone(h, u, Running(at, d), 1, Route(r.1.f, State(Settle(d.core.(w := r.0), Innermost(d.loops)), d.loops)),
               ctx, d, goal, false, r.0, Signal(r.1.f), fuel);
    }
  }

  lemma SameFits(ctx: List<bool>, d: State, d1: State)
    requires Fits(ctx, d) && d1.core.bodies == d.core.bodies && d1.core.stack == d.core.stack && d1.loops == d.loops
    ensures Fits(ctx, d1)
  {
  }

  lemma BeginFaults(ctx: List<bool>, d: State, goal: nat, w: World, f: Fault)
    requires Fits(ctx, d)
    ensures Arrives(ctx, d, goal, false, w, Signal(f),
        Route(f, State(Settle(d.core.(w := w), Innermost(d.loops)), d.loops)))
  {
    hide Arrives, Route;
    RaiseArrives(ctx, f, d.core.(w := w), d, goal, false);
  }

  // ── expressions and tests ──

  lemma {:induction false} ExprRuns(h: Host, u: Code, ctx: List<bool>, next: bool, e: Expr, at: nat, d: State,
          fuel: nat) returns (n: nat)
    requires Fits(ctx, d) && FitExpr(u.infos, e, next, ctx) && Placed(u, at, ExprCode(e, at, next))
    ensures Runs(h, u, Running(at, d), ctx, d, at + |ExprCode(e, at, next)|, true, ExprMeans(h, e, d.core.w, fuel),
        fuel, n)
    decreases fuel, e, 5
  {
    hide Exec, Steps, Runs, Fits, ScriptCode, ScriptMeans, ShapedScript, PlanScript;
    match e
    case Leaf(lit) =>
      PlacedAt(u, at, [Push(lit)], 0);
      PushWord(h, u, ctx, d, at, lit, fuel);
      n := 1;
    case Read(x) =>
      PlacedAt(u, at, [Load(x)], 0);
      ReadWord(h, u, ctx, d, at, x, fuel);
      n := 1;
    case Inner(s) =>
      n := BracketRuns(h, u, ctx, next, s, ExprMark, Region.Expr(d.core.site), at, d, fuel);
    case Binary(_, _, _) => n := BinaryRuns(h, u, ctx, next, e, at, d, fuel);
    case Unary(_, _) => n := UnaryRuns(h, u, ctx, next, e, at, d, fuel);
  }

  lemma {:induction false} UnaryRuns(h: Host, u: Code, ctx: List<bool>, next: bool, e: Expr, at: nat, d: State,
          fuel: nat) returns (n: nat)
    requires e.Unary? && Fits(ctx, d) && FitExpr(u.infos, e, next, ctx) && Placed(u, at, ExprCode(e, at, next))
    ensures Runs(h, u, Running(at, d), ctx, d, at + |ExprCode(e, at, next)|, true, ExprMeans(h, e, d.core.w, fuel),
        fuel, n)
    decreases fuel, e, 4
  {
    hide Exec, Runs, Fits, Steps, Placed, UnVal;
    var code := ExprCode(e.e, at, next);
    var mid := at + |code|;
    PlacedSplit(u, at, code, [Un(e.un)]);
    PlacedAt(u, mid, [Un(e.un)], 0);
    n := ExprRuns(h, u, ctx, next, e.e, at, d, fuel);
    var got := ExprMeans(h, e.e, d.core.w, fuel);
    if got.Some? && got.value.1.Gives? {
      var (w, v) := (got.value.0, got.value.1.v);
      Gave(h, u, Running(at, d), ctx, d, mid, got, fuel, n);
      HoldingFits(ctx, d, w, v);
      UnRuns(h, u.infos, e.un, Holding(d, w, v));
      EndsWith(h, u, Running(at, d), n, ctx, d, mid, Holding(d, w, v), d.core.(w := w), (w, UnVal(h, e.un, v)), true,
          fuel);
      n := n + 1;
    } else {
      Elsewhere(h, u, Running(at, d), ctx, d, mid, mid + 1, true, true, got, fuel, n);
    }
  }

  lemma {:induction false} BinaryRuns(h: Host, u: Code, ctx: List<bool>, next: bool, e: Expr, at: nat, d: State,
          fuel: nat) returns (n: nat)
    requires e.Binary? && Fits(ctx, d) && FitExpr(u.infos, e, next, ctx) && Placed(u, at, ExprCode(e, at, next))
    ensures Runs(h, u, Running(at, d), ctx, d, at + |ExprCode(e, at, next)|, true, ExprMeans(h, e, d.core.w, fuel),
        fuel, n)
    decreases fuel, e, 4
  {
    hide Exec, Runs, Fits, Steps, Placed, ExprCode, ExprMeans, Combined;
    var a := ExprCode(e.l, at, next);
    var mid := at + |a|;
    var b := ExprCode(e.r, mid, next);
    var got := ExprMeans(h, e.l, d.core.w, fuel);
    var all := ExprMeans(h, e, d.core.w, fuel);
    BinaryParts(h, e, at, next, d.core.w, fuel);
    BinaryPlaced(u, at, a, b, e.op);
    n := ExprRuns(h, u, ctx, next, e.l, at, d, fuel);
    if got.Some? && got.value.1.Gives? {
      var (w, v) := (got.value.0, got.value.1.v);
      Gave(h, u, Running(at, d), ctx, d, mid, got, fuel, n);
      HoldingFits(ctx, d, w, v);
      var k := ExprRuns(h, u, ctx, next, e.r, mid, Holding(d, w, v), fuel);
      k := SecondOperand(h, u, ctx, d, e.op, w, v, mid, mid + |b|, ExprMeans(h, e.r, w, fuel), fuel, k);
      RunsAfter(h, u, Running(at, d), n, Running(mid, Holding(d, w, v)), ctx, d, mid + |b| + 1, true, all, fuel, fuel,
          k);
      n := n + k;
    } else {
      Elsewhere(h, u, Running(at, d), ctx, d, mid, mid + |b| + 1, true, true, got, fuel, n);
    }
  }

  lemma BinaryParts(h: Host, e: Expr, at: nat, next: bool, w: World, fuel: nat)
    requires e.Binary?
    ensures var a := ExprCode(e.l, at, next); ExprCode(e, at, next) == a + ExprCode(e.r, at + |a|, next) + [Bin(e.op)]
    ensures var got := ExprMeans(h, e.l, w, fuel);
      ExprMeans(h, e, w, fuel)
      == if got.Some? && got.value.1.Gives? then Combined(h, e.op, got.value.1.v, ExprMeans(h, e.r, got.value.0, fuel))
          else got
  {
  }

  function Combined(h: Host, op: BinOp, v: Val, got: Got): Got {
    match got
    case None => None
    case Some(b) => if !b.1.Gives? then Some(b) else Some((b.0, OfReply(BinVal(h, op, v, b.1.v))))
  }

  lemma SecondOperand(h: Host, u: Code, ctx: List<bool>, d: State, op: BinOp, w: World, v: Val, mid: nat, end: nat,
          got: Got, fuel: nat, n: nat)
      returns (m: nat)
    requires Fits(ctx, d) && end < |u.ops| && OpAt(u.ops, end) == Bin(op)
    requires Runs(h, u, Running(mid, Holding(d, w, v)), ctx, Holding(d, w, v), end, true, got, fuel, n)
    ensures Runs(h, u, Running(mid, Holding(d, w, v)), ctx, d, end + 1, true, Combined(h, op, v, got), fuel, m)
  {
    hide Exec, Runs, Fits, Steps, BinVal, Alike;
    var d1 := Holding(d, w, v);
    if got.Some? && got.value.1.Gives? {
      var (w2, v2) := (got.value.0, got.value.1.v);
      var d2 := Holding(d1, w2, v2);
      Gave(h, u, Running(mid, d1), ctx, d1, end, got, fuel, n);
      HoldingFits(ctx, d, w, v);
      HoldingFits(ctx, d1, w2, v2);
      BinRuns(h, u.infos, op, d2);
      EndsWith(h, u, Running(mid, d1), n, ctx, d, end, d2, d.core.(w := w2), (w2, BinVal(h, op, v, v2)), true, fuel);
      m := n + 1;
    } else {
      m := n;
      if got.Some? { HoldingAlike(ctx, d, w, v, got.value.0); }
      RunsOutward(h, u, Running(mid, d1), ctx, d1, end, true, d, end + 1, true, got, fuel, n);
    }
  }

  lemma {:induction false} TestRuns(h: Host, u: Code, ctx: List<bool>, next: bool, t: Test, at: nat, d: State,
          fuel: nat) returns (n: nat)
    requires Fits(ctx, d) && FitTest(u.infos, t, next, ctx) && Placed(u, at, TestCode(t, at, next))
    ensures Runs(h, u, Running(at, d), ctx, d, at + |TestCode(t, at, next)|, true, TestMeans(h, t, d.core.w, fuel),
        fuel, n)
    decreases fuel, t, 6
  {
    hide Exec, Runs, Fits, Steps, ExprCode, ExprMeans, ShapedExpr, PlanExpr, WordCode, WordMeans, ShapedWord, PlanWord;
    match t
    case Inline(e) => n := ExprRuns(h, u, ctx, next, e, at, d, fuel);
    case Late(x) =>
      var code := WordCode(x, at, next);
      var mid := at + |code|;
      PlacedSplit(u, at, code, [EvalExpr]);
      PlacedAt(u, mid, [EvalExpr], 0);
      n := WordRuns(h, u, ctx, next, x, at, d, fuel);
      var got := WordMeans(h, x, d.core.w, fuel);
      if got.Some? && got.value.1.Gives? {
        Gave(h, u, Running(at, d), ctx, d, mid, got, fuel, n);
        HandOver(h, u, Running(at, d), n, ctx, d, mid, got.value.0, got.value.1.v, RunExpr(got.value.1.v), true, fuel);
        n := n + 1;
      } else {
        Elsewhere(h, u, Running(at, d), ctx, d, mid, mid + 1, true, true, got, fuel, n);
      }
  }

  // ── arms ──

  /** A test and its branch. */
  lemma TestBranch(h: Host, u: Code, ctx: List<bool>, next: bool, t: Test, at: nat, d: State, here: nat, goal: nat,
          keep: bool, fuel: nat)
      returns (m: nat)
    requires Fits(ctx, d) && FitTest(u.infos, t, next, ctx)
        && Placed(u, at, TestCode(t, at, next) + [JumpIf(false, here)])
    ensures var s := Steps(h, u, Running(at, d), m); var mid := at + |TestCode(t, at, next)|;
      match TestMeans(h, t, d.core.w, fuel)
      case None => s.Running? && m >= fuel
      case Some(r) =>
        match Choose(h, r.1)
        case Chose(b) => s == Now(if b then mid + 1 else here, Entered(d, r.0, b))
        case Neither(x) => Arrives(ctx, d, goal, keep, r.0, x, s)
    ensures TestMeans(h, t, d.core.w, fuel).Some? ==> m > 0
    decreases fuel, t, 7
  {
    hide Exec, Fits, Steps, TestCode, TestMeans, ShapedTest, PlanTest, Entered, Arrives;
    var code := TestCode(t, at, next);
    var mid := at + |code|;
    PlacedSplit(u, at, code, [JumpIf(false, here)]);
    PlacedAt(u, mid, [JumpIf(false, here)], 0);
    m := TestRuns(h, u, ctx, next, t, at, d, fuel);
    var got := TestMeans(h, t, d.core.w, fuel);
    if got.Some? { m := TestThen(h, u, Running(at, d), ctx, d, mid, here, goal, keep, got, fuel, m); }
  }

  /** The chosen body of an arm, from behind its branch to the end of the `if`. */
  lemma BodyRuns(h: Host, u: Code, ctx: List<bool>, next: bool, s: Script, at: nat, d: State, w: World, goal: nat,
          fuel: nat) returns (n: nat)
    requires Fits(ctx, d) && FitScript(u.infos, s, next, ctx) && Placed(u, at, ScriptCode(s, at, next))
    requires var end := at + |ScriptCode(s, at, next)|; end < |u.ops| && OpAt(u.ops, end) == Jump(goal)
    ensures Runs(h, u, Running(at, Entered(d, w, true)), ctx, d, goal, true, ScriptMeans(h, s, w, fuel), fuel, n)
    decreases fuel, s, 4
  {
    hide Runs, Fits, Steps, ScriptCode, ScriptMeans, ShapedScript, PlanScript;
    var d1 := Entered(d, w, true);
    EnteredFits(ctx, d, w, true);
    var k := ScriptRuns(h, u, ctx, next, s, at, d1, fuel);
    n := CloseRegion(h, u, Running(at, d1), ctx, d, d1, Body(d.core.site), at + |ScriptCode(s, at, next)|, goal,
                     ScriptMeans(h, s, w, fuel), fuel, k);
  }

  lemma {:induction false} ArmsRun(h: Host, u: Code, ctx: List<bool>, next: bool, a: Arms, at: nat, d: State, fuel: nat)
    returns (n: nat)
    requires Fits(ctx, d) && FitArms(u.infos, a, next, ctx) && Placed(u, at, ArmsCode(a, at, next))
    ensures Runs(h, u, Running(at, d), ctx, d, at + |ArmsCode(a, at, next)|, true, ArmsMean(h, a, d.core.w, fuel),
        fuel, n)
    decreases fuel, a, 8
  {
    hide Exec, Runs, Fits, Steps, ScriptCode, ScriptMeans, ShapedScript, PlanScript, TestCode, TestMeans, ShapedTest,
        PlanTest, Choose, Entered, ArmCode, Placed;
    match a
    case NoElse =>
      PlacedAt(u, at, [Push(Empty)], 0);
      PushWord(h, u, ctx, d, at, Empty, fuel);
      n := 1;
    case Else(body) => n := ElseRuns(h, u, ctx, next, body, at, d, fuel);
    case Arm(t, body, rest) =>
      var test := TestCode(t, at, next);
      var b := ScriptCode(body, at + |test| + 1, next);
      var here := at + |test| + |b| + 2;
      var code := ArmsCode(rest, here, next);
      var goal := here + |code|;
      ArmSize(test, b, code, at);
      ArmPlaced(u, at, test, b, code);
    var m := TestBranch(h, u, ctx, next, t, at, d, here, goal, true, fuel);
      var k := 0;
      var got := TestMeans(h, t, d.core.w, fuel);
      if got.Some? && Choose(h, got.value.1).Chose? {
        if Choose(h, got.value.1).b {
          k := BodyRuns(h, u, ctx, next, body, at + |test| + 1, d, got.value.0, goal, fuel);
        } else {
          SkippedFits(ctx, d, got.value.0);
          var d1 := Entered(d, got.value.0, false);
          k := ArmsRun(h, u, ctx, next, rest, here, d1, fuel);
          Otherwise(h, u, Running(here, d1), ctx, d, d1, goal, ArmsMean(h, rest, got.value.0, fuel), fuel, k);
        }
      }
      n := JoinArm(h, u, Running(at, d), ctx, d, goal, got, m, ArmsMean(h, a, d.core.w, fuel), fuel, k);
  }

  lemma SkippedFits(ctx: List<bool>, d: State, w: World)
    requires Fits(ctx, d)
    ensures Fits(ctx, Entered(d, w, false)) && Entered(d, w, false) == State(d.core.(w := w), d.loops)
  {
  }

  /** A run from a state that differs in its world only. */
  lemma Otherwise(h: Host, u: Code, start: Machine.Run, ctx: List<bool>, d: State, d1: State, goal: nat, got: Got,
          fuel: nat, n: nat)
    requires d1 == State(d.core.(w := d1.core.w), d.loops) && Runs(h, u, start, ctx, d1, goal, true, got, fuel, n)
    ensures Runs(h, u, start, ctx, d, goal, true, got, fuel, n)
  {
    hide Steps, BreakAt, ContinueAt;
    if got.Some? && !got.value.1.Gives? {
      Outward(ctx, d, d1, goal, goal, true, true, got.value.0, got.value.1, Steps(h, u, start, n));
    }
  }

  /** A test with its branch and what the branch chose. */
  lemma JoinArm(h: Host, u: Code, start: Machine.Run, ctx: List<bool>, d: State, goal: nat, got: Got, m: nat, all: Got,
          fuel: nat, k: nat)
      returns (n: nat)
    requires got.Some? ==> m > 0
    requires var s := Steps(h, u, start, m);
      match got
      case None => s.Running? && m >= fuel && all.None?
      case Some(r) =>
        match Choose(h, r.1)
        case Neither(x) => Arrives(ctx, d, goal, true, r.0, x, s) && all == Some((r.0, x))
        case Chose(_) => Runs(h, u, s, ctx, d, goal, true, all, fuel, k)
    ensures Runs(h, u, start, ctx, d, goal, true, all, fuel, n)
  {
    hide Steps, Arrives, Choose;
    var s := Steps(h, u, start, m);
    assert Steps(h, u, start, m) == s;
    n := m;
    if got.Some? && Choose(h, got.value.1).Chose? {
      RunsAfter(h, u, start, m, s, ctx, d, goal, true, all, fuel, fuel, k);
      n := m + k;
    }
  }

  lemma ElseRuns(h: Host, u: Code, ctx: List<bool>, next: bool, body: Script, at: nat, d: State, fuel: nat)
    returns (n: nat)
    requires Fits(ctx, d) && FitScript(u.infos, body, next, ctx) && Placed(u, at, ArmsCode(Else(body), at, next))
    ensures Runs(h, u, Running(at, d), ctx, d, at + |ArmsCode(Else(body), at, next)|, true,
        ScriptMeans(h, body, d.core.w, fuel), fuel, n)
    decreases fuel, body, 5
  {
    hide Exec, Runs, Fits, Steps, ScriptCode, ScriptMeans, ShapedScript, PlanScript;
    var b := ScriptCode(body, at + 1, next);
    var goal := at + |b| + 2;
    PlacedSplit(u, at, [Mark(BodyMark)] + b, [Jump(goal)]);
    PlacedSplit(u, at, [Mark(BodyMark)], b);
    PlacedAt(u, at, [Mark(BodyMark)], 0);
    PlacedAt(u, goal - 1, [Jump(goal)], 0);
    MarkStep(h, u, ctx, d, at, BodyMark, Body(d.core.site));
    var k := BodyRuns(h, u, ctx, next, body, at + 1, d, d.core.w, goal, fuel);
    n := 1 + k;
    RunsAfter(h, u, Running(at, d), 1, Running(at + 1, Entered(d, d.core.w, true)), ctx, d, goal, true,
              ScriptMeans(h, body, d.core.w, fuel), fuel, fuel, k);
  }

  // ── simple commands ──

  lemma SetRuns(h: Host, u: Code, ctx: List<bool>, next: bool, x: Loc, y: Word, at: nat, d: State, fuel: nat)
    returns (n: nat)
    requires Fits(ctx, d) && FitWord(u.infos, y, next, ctx) && Placed(u, at, WordCode(y, at, next) + [Store(x)])
    ensures Runs(h, u, Running(at, d), ctx, d, at + |WordCode(y, at, next)| + 1, false,
        FormMeans(h, Set(x, y), d.core.w, fuel), fuel, n)
    decreases fuel, y, 6
  {
    hide Exec, Fits, Steps, WordCode, WordMeans, ShapedWord, PlanWord, Route, Settle, Arrives, Runs;
    var code := WordCode(y, at, next);
    var mid := at + |code|;
    PlacedSplit(u, at, code, [Store(x)]);
    PlacedAt(u, mid, [Store(x)], 0);
    n := WordRuns(h, u, ctx, next, y, at, d, fuel);
    var got := WordMeans(h, y, d.core.w, fuel);
    if got.Some? && got.value.1.Gives? {
      var (w, v) := (got.value.0, got.value.1.v);
      Gave(h, u, Running(at, d), ctx, d, mid, got, fuel, n);
      var d1 := Holding(d, w, v);
      StoreRuns(h, u.infos, x, d1);
      OneStep(h, u, mid, d1);
      var r := h.ask(w, Write(x, v));
      StoreArrives(h, ctx, d, mid, w, v, r);
      var t := After(mid, Exec(h, u.infos, Store(x), d1));
      Chain(h, u, Running(at, d), n, Running(mid, d1), 1, t);
      n := n + 1;
      RunsDone(h, u, Running(at, d), n, t, ctx, d, mid + 1, false, r.0, if r.1.Ok? then Gives(v) else Signal(r.1.f),
          fuel);
    } else {
      Elsewhere(h, u, Running(at, d), ctx, d, mid, mid + 1, true, false, got, fuel, n);
    }
  }

  lemma StoreArrives(h: Host, ctx: List<bool>, d: State, mid: nat, w: World, v: Val, r: (World, Reply))
    requires Fits(ctx, d)
    ensures var d1 := Holding(d, w, v);
      Arrives(ctx, d, mid + 1, false, r.0, if r.1.Ok? then Gives(v) else Signal(r.1.f),
              After(mid, if r.1.Ok? then Fall(State(d1.core.(w := r.0), d1.loops))
                         else Raise(r.1.f, State(Settle(d1.core.(w := r.0), Innermost(d1.loops)), d1.loops))))
  {
    hide Route, Settle, Fits;
    if r.1.Fault? {
      HoldingFits(ctx, d, r.0, v);
      var c := Holding(d, r.0, v).core;
      assert Fits(ctx, State(c, d.loops));
      FaultOver(ctx, d, c, r.1.f, mid + 1);
    }
  }

  lemma FaultOver(ctx: List<bool>, d: State, c: Core, f: Fault, goal: nat)
    requires Fits(ctx, State(c, d.loops)) && Alike(c, d.core.(w := c.w), d.loops)
    ensures Arrives(ctx, d, goal, false, c.w, Signal(f), Route(f, State(Settle(c, Innermost(d.loops)), d.loops)))
  {
    hide Route, Settle, Arrives, Alike;
    RaiseArrives(ctx, f, c, d, goal, false);
  }

  lemma ExtendRuns(h: Host, u: Code, ctx: List<bool>, next: bool, x: Loc, y: Word, at: nat, d: State, fuel: nat)
    returns (n: nat)
    requires Fits(ctx, d) && FitWord(u.infos, y, next, ctx) && Placed(u, at, WordCode(y, at, next) + [Lappend(x)])
    ensures Runs(h, u, Running(at, d), ctx, d, at + |WordCode(y, at, next)| + 1, false,
        FormMeans(h, Form.Extend(x, y), d.core.w, fuel), fuel, n)
    decreases fuel, y, 6
  {
    hide Exec, Fits, Steps, WordCode, WordMeans, ShapedWord, PlanWord, Runs;
    var code := WordCode(y, at, next);
    var mid := at + |code|;
    PlacedSplit(u, at, code, [Lappend(x)]);
    PlacedAt(u, mid, [Lappend(x)], 0);
    n := WordRuns(h, u, ctx, next, y, at, d, fuel);
    var got := WordMeans(h, y, d.core.w, fuel);
    if got.Some? && got.value.1.Gives? {
      Gave(h, u, Running(at, d), ctx, d, mid, got, fuel, n);
      HandOver(h, u, Running(at, d), n, ctx, d, mid, got.value.0, got.value.1.v, Request.Extend(x, got.value.1.v),
          false, fuel);
      n := n + 1;
    } else {
      Elsewhere(h, u, Running(at, d), ctx, d, mid, mid + 1, true, false, got, fuel, n);
    }
  }

  lemma BumpRuns(h: Host, u: Code, ctx: List<bool>, x: Loc, k: int, at: nat, d: State, fuel: nat)
    requires Fits(ctx, d) && Placed(u, at, [Incr(x, k)])
    ensures Runs(h, u, Running(at, d), ctx, d, at + 1, false, Some(Ask(h, d.core.w, Request.Bump(x, k))), fuel, 1)
  {
    hide Exec, Fits;
    PlacedAt(u, at, [Incr(x, k)], 0);
    IncrRuns(h, u.infos, x, k, d);
    NoStep(h, u, Running(at, d));
    EndsWith(h, u, Running(at, d), 0, ctx, d, at, d, d.core, h.ask(d.core.w, Request.Bump(x, k)), false, fuel);
  }

  lemma GiveRuns(h: Host, u: Code, ctx: List<bool>, next: bool, y: Word, at: nat, d: State, fuel: nat) returns (n: nat)
    requires Fits(ctx, d) && FitWord(u.infos, y, next, ctx) && Placed(u, at, WordCode(y, at, next) + [Return])
    ensures Runs(h, u, Running(at, d), ctx, d, at + |WordCode(y, at, next)| + 1, false,
        FormMeans(h, Give(y), d.core.w, fuel), fuel, n)
    decreases fuel, y, 6
  {
    hide Exec, Fits, Steps, WordCode, WordMeans, ShapedWord, PlanWord, Runs;
    var code := WordCode(y, at, next);
    var mid := at + |code|;
    PlacedSplit(u, at, code, [Return]);
    PlacedAt(u, mid, [Return], 0);
    n := WordRuns(h, u, ctx, next, y, at, d, fuel);
    var got := WordMeans(h, y, d.core.w, fuel);
    if got.Some? && got.value.1.Gives? {
      var (w, v) := (got.value.0, got.value.1.v);
      Gave(h, u, Running(at, d), ctx, d, mid, got, fuel, n);
      var d1 := Holding(d, w, v);
      HoldingFits(ctx, d, w, v);
      ReturnRuns(h, u.infos, d1);
      OneStep(h, u, mid, d1);
      var t := Halted(Failed(Ret(v), w, None));
      Chain(h, u, Running(at, d), n, Running(mid, d1), 1, t);
      n := n + 1;
      RunsDone(h, u, Running(at, d), n, t, ctx, d, mid + 1, false, w, Halts(Ret(v)), fuel);
    } else {
      Elsewhere(h, u, Running(at, d), ctx, d, mid, mid + 1, true, false, got, fuel, n);
    }
  }

  lemma StopRuns(h: Host, u: Code, ctx: List<bool>, code: int, at: nat, d: State, fuel: nat)
    requires Fits(ctx, d) && Placed(u, at, [Exit(code)])
    ensures Runs(h, u, Running(at, d), ctx, d, at + 1, false, Some((d.core.w, Halts(Quit(code)))), fuel, 1)
  {
    hide Exec, Fits, Steps;
    PlacedAt(u, at, [Exit(code)], 0);
    ExitRuns(h, u.infos, code, d);
    OneStep(h, u, at, d);
    RunsDone(h, u, Running(at, d), 1, Halted(Failed(Quit(code), d.core.w, None)), ctx, d, at + 1, false, d.core.w,
        Halts(Quit(code)), fuel);
  }

  lemma CommandRuns(h: Host, u: Code, ctx: List<bool>, next: bool, dyn: bool, id: nat, ws: Words, at: nat, d: State,
          fuel: nat) returns (n: nat)
    requires Fits(ctx, d) && FitWords(u.infos, ws, next, ctx)
    requires Placed(u, at, WordsCode(ws, at, next) + [Call(dyn, id, Count(ws))])
    ensures Runs(h, u, Running(at, d), ctx, d, at + |WordsCode(ws, at, next)| + 1, false,
        FormMeans(h, Form.Run(dyn, id, ws), d.core.w, fuel), fuel, n)
    decreases fuel, ws, 6
  {
    hide Exec, Fits, WordsCode, WordsMean, ShapedWords, PlanWords, Arrives, Runs, Answer, FormMeans;
    CallMeans(h, dyn, id, ws, d.core.w, fuel);
    var code := WordsCode(ws, at, next);
    var mid := at + |code|;
    PlacedSplit(u, at, code, [Call(dyn, id, Count(ws))]);
    PlacedAt(u, mid, [Call(dyn, id, Count(ws))], 0);
    n := WordsRun(h, u, ctx, next, ws, at, d, fuel);
    var got := WordsMean(h, ws, d.core.w, fuel);
    if got.Some? && got.value.1.Many? {
      var (w, vs) := (got.value.0, got.value.1.vs);
      var d1 := Stacked(d, w, vs);
      CountWords(h, ws, d.core.w, fuel);
      TakePushed(d.core.stack, vs);
      StackedFits(ctx, d, w, vs);
      CallRuns(h, u.infos, dyn, id, Count(ws), d1);
      assert Steps(h, u, Running(at, d), n) == Running(mid, d1)
          by { ManyTook(h, u, Running(at, d), ctx, d, mid, w, vs, fuel, n); }
      EndsWith(h, u, Running(at, d), n, ctx, d, mid, d1, d.core.(w := w), h.ask(w, Invoke(dyn, vs)), false, fuel);
      n := n + 1;
    } else {
      ManyFell(h, u, Running(at, d), ctx, d, mid, mid + 1, false, got, fuel, n);
    }
  }

  lemma CallMeans(h: Host, dyn: bool, id: nat, ws: Words, w: World, fuel: nat)
    ensures var got := WordsMean(h, ws, w, fuel);
      FormMeans(h, Form.Run(dyn, id, ws), w, fuel)
      == match got
         case None => None
         case Some(r) => match r.1 case Fell(x) => Some((r.0, x)) case Many(vs) => Some(Ask(h, r.0, Invoke(dyn, vs)))
  {
    hide WordsMean;
  }

  lemma ManyTook(h: Host, u: Code, start: Machine.Run, ctx: List<bool>, d: State, goal: nat, w: World, vs: seq<Val>,
          fuel: nat, n: nat)
    requires RunsMany(h, u, start, ctx, d, goal, Some((w, Many(vs))), fuel, n)
    ensures Steps(h, u, start, n) == Running(goal, Stacked(d, w, vs))
  {
    hide Exec;
  }

  // ── break and continue ──

  lemma LeaveRuns(h: Host, u: Code, ctx: List<bool>, at: nat, d: State, fuel: nat)
    requires Fits(ctx, d) && Placed(u, at, [Loop(LoopOp.Break)])
    ensures Runs(h, u, Running(at, d), ctx, d, at + 1, false, Some((d.core.w, Breaks(Brk(1)))), fuel, 1)
  {
    hide ExecCore, Steps;
    PlacedAt(u, at, [Loop(LoopOp.Break)], 0);
    OneStep(h, u, at, d);
    RunsDone(h, u, Running(at, d), 1, BreakAt(Brk(1), d.core, d.loops), ctx, d, at + 1, false, d.core.w,
        Breaks(Brk(1)), fuel);
  }

  lemma AgainRuns(h: Host, u: Code, ctx: List<bool>, at: nat, d: State, fuel: nat)
    requires Fits(ctx, d) && Placed(u, at, [Loop(LoopOp.Continue)]) && Aimed(false, ctx)
    ensures Runs(h, u, Running(at, d), ctx, d, at + 1, false, Some((d.core.w, Continues(Cnt(1)))), fuel, 1)
  {
    hide ExecCore, Steps;
    PlacedAt(u, at, [Loop(LoopOp.Continue)], 0);
    OneStep(h, u, at, d);
    RunsDone(h, u, Running(at, d), 1, ContinueAt(ctx, Cnt(1), d.core, d.loops), ctx, d, at + 1, false, d.core.w,
        Continues(Cnt(1)), fuel);
  }

  lemma EscapeRuns(h: Host, u: Code, ctx: List<bool>, at: nat, d: State, fuel: nat)
    requires Fits(ctx, d) && Placed(u, at, [Loop(LoopExit), Loop(LoopOp.Continue)]) && Aimed(true, ctx)
    ensures Runs(h, u, Running(at, d), ctx, d, at + 2, false, Some((d.core.w, Continues(Cnt(1)))), fuel, 2)
  {
    hide ExecCore, Steps;
    PlacedAt(u, at, [Loop(LoopExit), Loop(LoopOp.Continue)], 0);
    PlacedAt(u, at, [Loop(LoopExit), Loop(LoopOp.Continue)], 1);
    OneStep(h, u, at, d);
    var d1 := OneOut(d);
    OneStep(h, u, at + 1, d1);
    var t := ContinueAt(ctx, Cnt(1), d.core, d.loops);
    EscapeLands(ctx, d);
    Chain(h, u, Running(at, d), 1, Running(at + 1, d1), 1, t);
    RunsDone(h, u, Running(at, d), 2, t, ctx, d, at + 2, false, d.core.w, Continues(Cnt(1)), fuel);
  }

  /** Out of the innermost loop, if there is one. */
  function OneOut(d: State): State { d.(loops := if d.loops.Nil? then Nil else d.loops.tail) }

  lemma InnerFits(ctx: List<bool>, d: State)
    requires Fits(ctx, d) && d.loops.Cons?
    ensures var l := d.loops.head.at;
      ctx.Cons? && CtxOk(ctx.tail, Truncate(d.core.bodies, l.bodiesLen), Truncate(d.core.stack, l.stackLen),
          d.loops.tail)
  {
  }

  /** Leaving the innermost loop first, a `continue` lands where one of its
      next script belongs. */
  lemma EscapeLands(ctx: List<bool>, d: State)
    requires Fits(ctx, d) && Aimed(true, ctx)
    ensures ContinueAt(ctx, Cnt(1), d.core, d.loops) == After(0, Machine.Leave(OneOut(d), false))
  {
    if d.loops.Cons? && d.loops.tail.Cons? {
      var l, l1 := d.loops.head.at, d.loops.tail.head.at;
      InnerFits(ctx, d);
      TruncateDepth(d.core.stack, l.stackLen);
      TruncateDepth(d.core.bodies, l.bodiesLen);
      TruncateTwice(d.core.stack, l.stackLen, l1.stackLen);
      TruncateTwice(d.core.bodies, l.bodiesLen, l1.bodiesLen);
    }
  }

  /** Loops left behind by a `continue`, as many as it should leave. */
  lemma {:induction false} ContinueDepth(ctx: List<bool>, c: Core, loops: List<LoopFrame>)
    ensures var r := ContinueAt(ctx, Cnt(1), c, loops);
      && (r.Halted? || Depth(r.d.loops) <= Depth(loops))
      && (ctx.Cons? && ctx.head && loops.Cons? ==> r.Halted? || Depth(r.d.loops) < Depth(loops))
      && (ctx.Cons? && !ctx.head && loops.Cons? ==> r.Running? && r.d.loops == loops)
    decreases loops
  {
    if loops.Cons? && ctx.Cons? && ctx.head { ContinueDepth(ctx.tail, Cut(c, loops.head.at), loops.tail); }
  }

  /** A literal `continue` goes where it belongs exactly when its flag fits the
      loops around it. */
  lemma ContinueLands(h: Host, u: Code, ctx: List<bool>, next: bool, at: nat, d: State)
    requires Fits(ctx, d) && Placed(u, at, FormCode(Again, at, next))
    ensures Steps(h, u, Running(at, d), |FormCode(Again, at, next)|) == ContinueAt(ctx, Cnt(1), d.core, d.loops)
        <==> Aimed(next, ctx)
  {
    hide Exec, ExecCore, Truncate, NextAbove;
    if Aimed(next, ctx) {
      if next { EscapeRuns(h, u, ctx, at, d, 0); } else { AgainRuns(h, u, ctx, at, d, 0); }
    } else {
      Misses(h, u, ctx, next, at, d);
    }
  }

  lemma Misses(h: Host, u: Code, ctx: List<bool>, next: bool, at: nat, d: State)
    requires Fits(ctx, d) && Placed(u, at, FormCode(Again, at, next)) && !Aimed(next, ctx)
    ensures Steps(h, u, Running(at, d), |FormCode(Again, at, next)|) != ContinueAt(ctx, Cnt(1), d.core, d.loops)
  {
    hide ExecCore, Truncate, NextAbove;
    var code := FormCode(Again, at, next);
    ContinueDepth(ctx, d.core, d.loops);
    PlacedAt(u, at, code, 0);
    OneStep(h, u, at, d);
    if next {
      PlacedAt(u, at, code, 1);
      OneStep(h, u, at + 1, OneOut(d));
      Chain(h, u, Running(at, d), 1, Running(at + 1, OneOut(d)), 1, Steps(h, u, Running(at + 1, OneOut(d)), 1));
      if ctx.head {
        InnerFits(ctx, d);
        ContinueDepth(ctx.tail, Cut(d.core, d.loops.head.at), d.loops.tail);
        assert Steps(h, u, Running(at + 1, OneOut(d)), 1) == After(at + 1, Machine.Leave(OneOut(d), false));
        assert d.loops.tail.Cons?;
      }
    }
  }

  // ── if ──

  lemma IfRuns(h: Host, u: Code, ctx: List<bool>, next: bool, f: Form, at: nat, d: State, fuel: nat) returns (n: nat)
    requires f.If? && Fits(ctx, d) && FitForm(u.infos, f, next, ctx) && Placed(u, at, FormCode(f, at, next))
    ensures Runs(h, u, Running(at, d), ctx, d, at + |FormCode(f, at, next)|, true, FormMeans(h, f, d.core.w, fuel),
        fuel, n)
    decreases fuel, f, 8
  {
    hide Exec, Runs, Fits, Steps, ScriptCode, ScriptMeans, ShapedScript, PlanScript, TestCode, TestMeans, ShapedTest,
        PlanTest, Choose, Entered, ArmCode, ArmsCode, ArmsMean, ShapedArms, PlanArms;
    var t, body, rest := f.test, f.body, f.arms;
    var test := TestCode(t, at, next);
    var b := ScriptCode(body, at + |test| + 1, next);
    var here := at + |test| + |b| + 2;
    var code := ArmsCode(rest, here, next);
    var goal := here + |code|;
    ArmSize(test, b, code, at);
    ArmPlaced(u, at, test, b, code);
    var m := TestBranch(h, u, ctx, next, t, at, d, here, goal, true, fuel);
    var k := 0;
    var got := TestMeans(h, t, d.core.w, fuel);
    if got.Some? && Choose(h, got.value.1).Chose? {
      if Choose(h, got.value.1).b {
        k := BodyRuns(h, u, ctx, next, body, at + |test| + 1, d, got.value.0, goal, fuel);
      } else {
        SkippedFits(ctx, d, got.value.0);
        var d1 := Entered(d, got.value.0, false);
        k := ArmsRun(h, u, ctx, next, rest, here, d1, fuel);
        Otherwise(h, u, Running(here, d1), ctx, d, d1, goal, ArmsMean(h, rest, got.value.0, fuel), fuel, k);
      }
    }
    n := JoinArm(h, u, Running(at, d), ctx, d, goal, got, m, FormMeans(h, f, d.core.w, fuel), fuel, k);
  }

  // ── while ──

  /** A test inside a loop, seen as the loop sees it. */
  lemma TestDirected(h: Host, ctx: List<bool>, d: State, cont: nat, brk: nat, w0: World, w: World, r: Res,
          s: Machine.Run)
    requires Arrives(Cons(false, ctx), Pass(d, cont, brk, w0), 0, true, w, r, s) && !r.Gives?
    ensures Directed(d, cont, brk, w, r, s)
  {
    PassCatches(ctx, d, cont, brk, w0, w, 0, true, r, s);
  }

  lemma NeitherIsSignal(h: Host, r: Res)
    ensures Choose(h, r).Neither? ==> !Choose(h, r).r.Gives?
  {
  }

  /** A loop's result after a pass: its own, if the pass decides it. */
  function GoesOn(h: Host, r: Res, w: World, got: Got): Got {
    if Caught(h, r).Some? then Some((w, Caught(h, r).value)) else got
  }

  /** The end of a `while`, its `LoopExit`. */
  function WhileEnd(f: Form, at: nat): nat {
    var test := TestCode(TestOf(f), at + 1, false);
    at + |test| + |ScriptCode(BodyOf(f), at + |test| + 2, false)| + 4
  }

  ghost predicate WhileReady(u: Code, ctx: List<bool>, f: Form, at: nat, d: State) {
    && f.While? && Fits(ctx, d)
    && FitTest(u.infos, f.test, false, Cons(false, ctx)) && FitScript(u.infos, f.body, false, Cons(false, ctx))
    && var test := TestCode(f.test, at + 1, false);
      Placed(u, at, WhileCode(test, ScriptCode(f.body, at + |test| + 2, false), at))
  }

  lemma {:induction false} WhileRuns(h: Host, u: Code, ctx: List<bool>, f: Form, at: nat, d: State, w: World, fuel: nat)
    returns (n: nat)
    requires WhileReady(u, ctx, f, at, d)
    ensures var end := WhileEnd(f, at);
      Runs(h, u, Now(at + 1, Pass(d, at + 1, end, w)), ctx, d, end + 2, true, WhileMeans(h, f, w, fuel), fuel, n)
    decreases fuel, f, 7
  {
    hide Exec, Runs, Fits, Steps, ScriptCode, ScriptMeans, ShapedScript, PlanScript, TestCode, TestMeans, ShapedTest,
        PlanTest, Choose, WhileCode, Arrives, Directed, Pass, Entered, Caught;
    var inside := Cons(false, ctx);
    var test := TestCode(f.test, at + 1, false);
    var body := ScriptCode(f.body, at + |test| + 2, false);
    var end := at + |test| + |body| + 4;
    var p := Pass(d, at + 1, end, w);
    var start := Running(at + 1, p);
    if fuel == 0 {
      n := 0;
      NoFuel(h, u, at + 1, p, ctx, d, end + 2, true);
    } else {
      WhilePlaced(u, at, test, body);
      PassFits(ctx, d, at + 1, end, w);
      PassWorld(d, at + 1, end, w);
      var m := TestBranch(h, u, inside, false, f.test, at + 1, p, end, 0, true, fuel);
      var s := Steps(h, u, start, m);
      var got := TestMeans(h, f.test, w, fuel);
      if got.None? {
        n := m;
        StillRuns(h, u, start, m, s, ctx, d, end + 2, true, fuel);
      } else {
        var (w1, c) := (got.value.0, Choose(h, got.value.1));
        if c.Neither? {
          NeitherIsSignal(h, got.value.1);
          TestDirected(h, ctx, d, at + 1, end, w, w1, c.r, s);
          n := WhileOn(h, u, start, m, s, ctx, f, at, d, w1, c.r, fuel);
        } else if !c.b {
          LeftPass(d, at + 1, end, w, w1);
          n := LoopOver(h, u, start, m, ctx, d, at + 1, end, w1, fuel);
        } else {
          EnteredFits(inside, p, w1, true);
          var q := Entered(p, w1, true);
          EnteredWorld(p, w1);
          var k := ScriptRuns(h, u, inside, false, f.body, at + |test| + 2, q, fuel);
          var ran := ScriptMeans(h, f.body, w1, fuel);
          if ran.None? {
            StillRunning(h, u, s, inside, q, end - 2, false, ctx, d, end + 2, true, fuel, k);
            n := m + k;
            RunsAfter(h, u, start, m, s, ctx, d, end + 2, true, None, fuel, fuel, k);
          } else {
            EnteredPass(d, at + 1, end, w, w1);
            var k1, s1 := BodyDirected(h, u, s, ctx, d, at + 1, end, w1, end - 2, ran.value.0, ran.value.1, fuel, k);
            Chain(h, u, start, m, s, k1, s1);
            n := WhileOn(h, u, start, m + k1, s1, ctx, f, at, d, ran.value.0, ran.value.1, fuel);
          }
        }
      }
    }
  }

  lemma PassWorld(d: State, cont: nat, brk: nat, w: World)
    ensures Pass(d, cont, brk, w).core.w == w
  {
  }

  lemma EnteredWorld(p: State, w: World)
    ensures Entered(p, w, true).core.w == w
  {
  }

  lemma LeftPass(d: State, cont: nat, brk: nat, w: World, w1: World)
    ensures Entered(Pass(d, cont, brk, w), w1, false) == Pass(d, cont, brk, w1)
  {
  }

  lemma EnteredPass(d: State, cont: nat, brk: nat, w: World, w1: World)
    ensures Entered(Pass(d, cont, brk, w), w1, true) == Entered(Pass(d, cont, brk, w1), w1, true)
  {
  }

  lemma StillRuns(h: Host, u: Code, start: Machine.Run, m: nat, s: Machine.Run, ctx: List<bool>, d: State, goal: nat,
          keep: bool, fuel: nat)
    requires Steps(h, u, start, m) == s && s.Running? && m >= fuel
    ensures Runs(h, u, start, ctx, d, goal, keep, None, fuel, m)
  {
    hide Exec;
  }

  lemma StillRunning(h: Host, u: Code, start: Machine.Run, ctx1: List<bool>, d1: State, goal1: nat, keep1: bool,
                     ctx: List<bool>, d: State, goal: nat, keep: bool, fuel: nat, n: nat)
    requires Runs(h, u, start, ctx1, d1, goal1, keep1, None, fuel, n)
    ensures Runs(h, u, start, ctx, d, goal, keep, None, fuel, n)
  {
    hide Exec;
  }

  /** After a pass of a while: the loop is left, or the next pass starts. */
  lemma WhileOn(h: Host, u: Code, start: Machine.Run, m: nat, s: Machine.Run, ctx: List<bool>, f: Form, at: nat,
          d: State, w: World, r: Res, fuel: nat)
      returns (n: nat)
    requires WhileReady(u, ctx, f, at, d) && fuel > 0
    requires Steps(h, u, start, m) == s && m > 0 && Directed(d, Spot(at + 1), WhileEnd(f, at), w, r, s)
    ensures Runs(h, u, start, ctx, d, WhileEnd(f, at) + 2, true,
        GoesOn(h, r, w, WhileMeans(h, f, w, Spot(fuel - 1))), fuel, n)
    decreases fuel, f, 6
  {
    hide Exec, Runs, Fits, Steps, ScriptCode, ShapedScript, PlanScript, TestCode, ShapedTest, PlanTest, WhileCode,
        WhileMeans, Pass;
    var test := TestCode(f.test, at + 1, false);
    var body := ScriptCode(f.body, at + |test| + 2, false);
    var end := at + |test| + |body| + 4;
    WhilePlaced(u, at, test, body);
    if Caught(h, r).Some? {
      n := LoopLeft(h, u, start, m, s, ctx, d, at + 1, end, w, r, fuel);
    } else {
      var k := WhileRuns(h, u, ctx, f, at, d, w, fuel - 1);
      n := m + k;
      RunsAfter(h, u, start, m, s, ctx, d, end + 2, true, WhileMeans(h, f, w, fuel - 1), fuel - 1, fuel, k);
    }
  }

  // ── for ──

  ghost predicate ForReady(u: Code, ctx: List<bool>, f: Form, at: nat, d: State) {
    && f.For? && Fits(ctx, d)
    && FitTest(u.infos, f.test, false, Cons(false, ctx)) && FitScript(u.infos, f.body, false, Cons(false, ctx))
    && FitScript(u.infos, f.next, true, Cons(true, ctx))
    && var p := PlanFor(f, at); Placed(u, at, ForCode(p.test, p.body, p.next, at))
  }

  lemma {:induction false} ForRuns(h: Host, u: Code, ctx: List<bool>, f: Form, at: nat, d: State, w: World, fuel: nat)
    returns (n: nat)
    requires ForReady(u, ctx, f, at, d)
    ensures var p := PlanFor(f, at);
      Runs(h, u, Now(at + 1, Pass(d, p.tail, p.end, w)), ctx, d, p.end + 2, true, ForMeans(h, f, w, fuel), fuel, n)
    decreases fuel, f, 7, 0
  {
    hide Exec, Runs, Fits, Steps, ScriptCode, ScriptMeans, ShapedScript, PlanScript, TestCode, TestMeans, ShapedTest,
        PlanTest, Choose, ForCode, Arrives, Directed, Pass, Entered, Caught, NextMeans;
    var inside, plan := Cons(false, ctx), PlanFor(f, at);
    var test, tail, end := plan.test, plan.tail, plan.end;
    var p := Pass(d, tail, end, w);
    var start := Running(at + 1, p);
    ForPlaced(u, at, test, plan.body, plan.next);
    PassFits(ctx, d, tail, end, w);
    PassWorld(d, tail, end, w);
    var m := TestBranch(h, u, inside, false, f.test, at + 1, p, end, 0, true, fuel);
    var s := Steps(h, u, start, m);
    var got := TestMeans(h, f.test, w, fuel);
    if got.None? {
      n := m;
      StillRuns(h, u, start, m, s, ctx, d, end + 2, true, fuel);
    } else {
      var (w1, c) := (got.value.0, Choose(h, got.value.1));
      if c.Neither? {
        NeitherIsSignal(h, got.value.1);
        TestDirected(h, ctx, d, tail, end, w, w1, c.r, s);
        n := ForOn(h, u, start, m, s, ctx, f, at, d, w1, c.r, fuel);
      } else if !c.b {
        LeftPass(d, tail, end, w, w1);
        n := LoopOver(h, u, start, m, ctx, d, tail, end, w1, fuel);
      } else {
        EnteredPass(d, tail, end, w, w1);
        n := ForBody(h, u, start, m, ctx, f, at, d, w1, fuel);
      }
    }
  }

  /** From a pass's body on. */
  lemma {:induction false} ForBody(h: Host, u: Code, start: Machine.Run, m: nat, ctx: List<bool>, f: Form, at: nat,
          d: State, w: World, fuel: nat)
      returns (n: nat)
    requires ForReady(u, ctx, f, at, d) && m > 0
    requires var p := PlanFor(f, at);
      Steps(h, u, start, m) == Now(at + |p.test| + 2, Entered(Pass(d, p.tail, p.end, w), w, true))
    ensures var got := ScriptMeans(h, BodyOf(f), w, fuel);
      Runs(h, u, start, ctx, d, PlanFor(f, at).end + 2, true,
           if got.None? then None else GoesOn(h, got.value.1, got.value.0, NextMeans(h, f, got.value.0, fuel)), fuel, n)
    decreases fuel, f, 6, 1
  {
    hide Exec, Runs, Fits, Steps, ScriptCode, ScriptMeans, ShapedScript, PlanScript, TestCode, ShapedTest, PlanTest,
        ForCode, Directed, Pass, Entered, GoesOn, NextMeans;
    var inside, plan := Cons(false, ctx), PlanFor(f, at);
    var tail, end := plan.tail, plan.end;
    var p := Pass(d, tail, end, w);
    var q := Entered(p, w, true);
    var s := Running(at + |plan.test| + 2, q);
    ForPlaced(u, at, plan.test, plan.body, plan.next);
    PassFits(ctx, d, tail, end, w);
    EnteredFits(inside, p, w, true);
    EnteredWorld(p, w);
    var k := ScriptRuns(h, u, inside, false, f.body, at + |plan.test| + 2, q, fuel);
    var ran := ScriptMeans(h, f.body, w, fuel);
    if ran.None? {
      StillRunning(h, u, s, inside, q, tail - 2, false, ctx, d, end + 2, true, fuel, k);
      n := m + k;
      RunsAfter(h, u, start, m, s, ctx, d, end + 2, true, None, fuel, fuel, k);
    } else {
      var k1, s1 := BodyDirected(h, u, s, ctx, d, tail, end, w, tail - 2, ran.value.0, ran.value.1, fuel, k);
      Chain(h, u, start, m, s, k1, s1);
      n := ForOn(h, u, start, m + k1, s1, ctx, f, at, d, ran.value.0, ran.value.1, fuel);
    }
  }

  /** After a pass's body: the loop is left, or its next script runs. */
  lemma ForOn(h: Host, u: Code, start: Machine.Run, m: nat, s: Machine.Run, ctx: List<bool>, f: Form, at: nat,
          d: State, w: World, r: Res, fuel: nat)
      returns (n: nat)
    requires ForReady(u, ctx, f, at, d)
    requires Steps(h, u, start, m) == s && m > 0 && Directed(d, PlanFor(f, at).tail, PlanFor(f, at).end, w, r, s)
    ensures Runs(h, u, start, ctx, d, PlanFor(f, at).end + 2, true,
                 GoesOn(h, r, w, NextMeans(h, f, w, fuel)), fuel, n)
    decreases fuel, f, 6, 0
  {
    hide Exec, Runs, Fits, Steps, ScriptCode, ShapedScript, PlanScript, TestCode, ShapedTest, PlanTest, ForCode,
        NextMeans, Pass;
    var p := PlanFor(f, at);
    ForPlaced(u, at, p.test, p.body, p.next);
    if Caught(h, r).Some? {
      n := LoopLeft(h, u, start, m, s, ctx, d, p.tail, p.end, w, r, fuel);
    } else {
      var k := NextRuns(h, u, ctx, f, at, d, w, fuel);
      n := m + k;
      RunsAfter(h, u, start, m, s, ctx, d, p.end + 2, true, NextMeans(h, f, w, fuel), fuel, fuel, k);
    }
  }

  function NextState(p: State): State { State(p.core.(bodies := Cons(Region.Next(p.core.site), p.core.bodies)),
          p.loops) }

  /** The next script of a pass, and on. */
  lemma {:induction false} NextRuns(h: Host, u: Code, ctx: List<bool>, f: Form, at: nat, d: State, w: World, fuel: nat)
    returns (n: nat)
    requires ForReady(u, ctx, f, at, d)
    ensures var p := PlanFor(f, at);
      Runs(h, u, Running(p.tail, Pass(d, p.tail, p.end, w)), ctx, d, p.end + 2, true, NextMeans(h, f, w, fuel), fuel, n)
    decreases fuel, f, 5
  {
    hide Exec, Runs, Fits, Steps, ScriptCode, ScriptMeans, ShapedScript, PlanScript, TestCode, ShapedTest, PlanTest,
        ForCode, Pass, Arrives, ForMeans, NextState;
    var plan := PlanFor(f, at);
    var tail, end := plan.tail, plan.end;
    var p := Pass(d, tail, end, w);
    var start := Running(tail, p);
    if fuel == 0 {
      n := 0;
      NoFuel(h, u, tail, p, ctx, d, end + 2, true);
    } else {
      ForPlaced(u, at, plan.test, plan.body, plan.next);
      var q := NextState(p);
      NextOpens(h, u, ctx, tail, d, end, w);
      var k := ScriptRuns(h, u, Cons(true, ctx), true, f.next, tail + 1, q, fuel);
      var ran := ScriptMeans(h, f.next, w, fuel);
      if ran.None? {
        StillRunning(h, u, Running(tail + 1, q), Cons(true, ctx), q, end - 2, false, ctx, d, end + 2, true, fuel, k);
        n := 1 + k;
        RunsAfter(h, u, start, 1, Running(tail + 1, q), ctx, d, end + 2, true, None, fuel, fuel, k);
      } else if ran.value.1.Gives? {
        var m := NextDone(h, u, ctx, d, tail, end, w, ran.value.0, ran.value.1.v, end - 2, at + 1, fuel, k);
        var j := ForRuns(h, u, ctx, f, at, d, ran.value.0, fuel - 1);
        n := m + j;
        RunsAfter(h, u, start, m, Running(at + 1, Pass(d, tail, end, ran.value.0)), ctx, d, end + 2, true,
                  ForMeans(h, f, ran.value.0, fuel - 1), fuel - 1, fuel, j);
      } else {
        n := NextLeft(h, u, ctx, d, tail, end, w, ran.value.0, ran.value.1, end - 2, fuel, k);
      }
    }
  }

  lemma NextOpens(h: Host, u: Code, ctx: List<bool>, tail: nat, d: State, end: nat, w: World)
    requires Fits(ctx, d) && tail < |u.ops| && OpAt(u.ops, tail) == Mark(NextMark)
    ensures var q := NextState(Pass(d, tail, end, w));
      Steps(h, u, Running(tail, Pass(d, tail, end, w)), 1) == Now(tail + 1, q) && Fits(Cons(true, ctx), q)
          && q.core.w == w
  {
    hide Steps, Fits;
    OpenNext(h, u, ctx, tail, d, tail, end, w);
  }

  lemma NextDone(h: Host, u: Code, ctx: List<bool>, d: State, tail: nat, end: nat, w: World, w1: World, v: Val,
          last: nat, t: nat, fuel: nat, k: nat)
      returns (m: nat)
    requires Fits(ctx, d) && tail < |u.ops| && OpAt(u.ops, tail) == Mark(NextMark)
    requires last + 1 < |u.ops| && OpAt(u.ops, last) == Pop && OpAt(u.ops, last + 1) == Jump(t)
    requires Runs(h, u, Now(tail + 1, NextState(Pass(d, tail, end, w))), Cons(true, ctx),
        NextState(Pass(d, tail, end, w)), last, false,
                  Some((w1, Gives(v))), fuel, k)
    ensures m > 0 && Steps(h, u, Running(tail, Pass(d, tail, end, w)), m) == Running(t, Pass(d, tail, end, w1))
  {
    hide Steps, Fits, Exec;
    var p := Pass(d, tail, end, w);
    var q := NextState(p);
    var s := Steps(h, u, Running(tail + 1, q), k);
    assert Steps(h, u, Running(tail + 1, q), k) == s;
    NextOpens(h, u, ctx, tail, d, end, w);
    PassFits(ctx, d, tail, end, w);
    DropAndJump(h, u, Cons(false, ctx), last, p, Region.Next(d.core.site), w1, v, s.d.core.site, t);
    Chain(h, u, Running(tail, p), 1, Running(tail + 1, q), k, s);
    Chain(h, u, Running(tail, p), 1 + k, s, 2, Running(t, Pass(d, tail, end, w1)));
    m := 3 + k;
  }

  lemma NextLeft(h: Host, u: Code, ctx: List<bool>, d: State, tail: nat, end: nat, w: World, w1: World, r: Res,
          last: nat, fuel: nat, k: nat)
      returns (n: nat)
    requires Fits(ctx, d) && tail < |u.ops| && OpAt(u.ops, tail) == Mark(NextMark)
    requires end + 1 < |u.ops| && OpAt(u.ops, end) == Loop(LoopExit) && OpAt(u.ops, end + 1) == Push(Empty)
    requires !r.Gives? && Runs(h, u, Now(tail + 1, NextState(Pass(d, tail, end, w))), Cons(true, ctx),
        NextState(Pass(d, tail, end, w)), last, false,
                  Some((w1, r)), fuel, k)
    ensures Runs(h, u, Running(tail, Pass(d, tail, end, w)), ctx, d, end + 2, true,
                 Some((w1, if r.Breaks? then Gives(Blank(h)) else r)), fuel, n)
  {
    hide Steps, Fits, Exec;
    var p := Pass(d, tail, end, w);
    var q := NextState(p);
    var s := Steps(h, u, Running(tail + 1, q), k);
    assert Steps(h, u, Running(tail + 1, q), k) == s;
    NextOpens(h, u, ctx, tail, d, end, w);
    NextCatches(ctx, d, tail, end, w, w1, last, false, r, s, end + 2, true);
    Chain(h, u, Running(tail, p), 1, Running(tail + 1, q), k, s);
    if r.Breaks? {
      n := LoopOver(h, u, Running(tail, p), 1 + k, ctx, d, tail, end, w1, fuel);
    } else {
      n := 1 + k;
      RunsDone(h, u, Running(tail, p), n, s, ctx, d, end + 2, true, w1, r, fuel);
    }
  }

  // ── foreach ──

  /** `d` with the iteration's own frame on the foreach stack. */
  function Framed(h: Host, d: State, f: Form, lists: seq<Val>, k: int, acc: seq<Val>): State {
    var shape := ShapeOf(f);
    var ff := ForeachFrame(lists, Spot(k), h.iters(InfoOf(f), lists), if shape.lmap then Some(acc) else None,
        shape.framed, shape.lmap);
    State(d.core.(foreaches := Cons(ff, d.core.foreaches)), d.loops)
  }

  /** Between two parts of pass `k`. */
  function Each(h: Host, d: State, f: Form, lists: seq<Val>, tail: int, k: int, acc: seq<Val>, w: World): State
  {
    Pass(Framed(h, d, f, lists, k, acc), tail, tail + 1, w)
  }

  ghost predicate EachReady(u: Code, ctx: List<bool>, next: bool, f: Form, at: nat, d: State) {
    && f.Foreach? && Fits(ctx, d) && f.info < |u.infos| && u.infos[f.info] == f.shape
    && FitScript(u.infos, f.body, next, Cons(false, ctx))
    && Placed(u, at, EachCode(f.info, f.shape, ScriptCode(f.body, at + 2, next), at))
  }

  function TailOf(f: Form, at: nat, next: bool): nat { at + |ScriptCode(BodyOf(f), at + 2, next)| + 4 }

  /** What a pass's result leads to. */
  function AfterPass(h: Host, f: Form, lists: seq<Val>, k: nat, acc: seq<Val>, got: Got, fuel: nat): Got
  {
    match got
    case None => None
    case Some(r) =>
      match r.1
      case Breaks(_) => Some((r.0, Gives(Gathered(h, ShapeOf(f), acc))))
      case Halts(_) => Some(r)
      case Continues(_) => EachMeans(h, f, lists, k + 1, acc, r.0, fuel)
      case Gives(v) => EachMeans(h, f, lists, k + 1, acc + [v], r.0, fuel)
  }

  /** A pass that gave a value has been gathered; another result leads out of
      the pass. */
  ghost predicate PassLed(h: Host, d: State, f: Form, lists: seq<Val>, tail: int, k: int, acc: seq<Val>, w: World,
          r: Res, s: Machine.Run)
  {
    if r.Gives? then s == Now(tail, Each(h, d, f, lists, tail, k, acc + [r.v], w))
    else Directed(Framed(h, d, f, lists, k, acc), Spot(tail), Spot(tail + 1), w, r, s)
  }

  lemma EachFits(h: Host, ctx: List<bool>, d: State, f: Form, lists: seq<Val>, tail: nat, k: nat, acc: seq<Val>,
          w: World)
    requires f.Foreach? && Fits(ctx, d)
    ensures Fits(Cons(false, ctx), Each(h, d, f, lists, tail, k, acc, w))
    ensures Fits(ctx, Framed(h, d, f, lists, k, acc))
  {
    SameFits(ctx, d, Framed(h, d, f, lists, k, acc));
    PassFits(ctx, Framed(h, d, f, lists, k, acc), tail, tail + 1, w);
  }

  /** The end of the iteration: both frames go, what it gathered comes. */
  lemma EachOver(h: Host, u: Code, start: Machine.Run, m: nat, ctx: List<bool>, next: bool, f: Form, at: nat, d: State,
          lists: seq<Val>,
                 k: nat, acc: seq<Val>, w: World, fuel: nat) returns (n: nat)
    requires EachReady(u, ctx, next, f, at, d)
    requires var tail := TailOf(f, at, next);
      Steps(h, u, start, m) == Now(tail + 1, Each(h, d, f, lists, tail, k, acc, w))
    ensures Runs(h, u, start, ctx, d, TailOf(f, at, next) + 2, true, Some((w, Gives(Gathered(h, ShapeOf(f), acc)))),
        fuel,
        n)
  {
    hide Exec, ExecCore, Steps, Fits, ScriptCode, ShapedScript, PlanScript, Arrives, EachCode, Runs;
    var tail := TailOf(f, at, next);
    var e, v := Each(h, d, f, lists, tail, k, acc, w), Gathered(h, f.shape, acc);
    EachPlaced(u, at, f.info, f.shape, ScriptCode(f.body, at + 2, next));
    EachFits(h, ctx, d, f, lists, tail, k, acc, w);
    OneStep(h, u, tail + 1, e);
    EndRuns(h, u.infos, d, f, lists, tail, k, acc, w);
    var t := Running(tail + 2, Holding(d, w, v));
    Chain(h, u, start, m, Running(tail + 1, e), 1, t);
    ValueArrives(ctx, d, tail + 2, w, v);
    n := m + 1;
    RunsDone(h, u, start, n, t, ctx, d, tail + 2, true, w, Gives(v), fuel);
  }

  lemma EndRuns(h: Host, infos: seq<ForeachInfo>, d: State, f: Form, lists: seq<Val>, tail: nat, k: nat, acc: seq<Val>,
          w: World)
    requires f.Foreach?
    ensures Exec(h, infos, Loop(ForeachEnd), Each(h, d, f, lists, tail, k, acc, w))
        == Fall(Holding(d, w, Gathered(h, ShapeOf(f), acc)))
  {
    hide ExecCore;
  }

  /** A pass that ended: broken off, halted, or on to the next. */
  lemma PassEnded(h: Host, u: Code, start: Machine.Run, m: nat, s: Machine.Run, ctx: List<bool>, next: bool, f: Form,
          at: nat, d: State,
                  lists: seq<Val>, k: nat, acc: seq<Val>, w: World, r: Res, fuel: nat) returns (n: nat)
    requires EachReady(u, ctx, next, f, at, d) && k < h.iters(InfoOf(f), lists)
    requires var tail := TailOf(f, at, next);
      && Steps(h, u, start, m) == s && m > 0
      && PassLed(h, d, f, lists, tail, k, acc, w, r, s)
    ensures Runs(h, u, start, ctx, d, TailOf(f, at, next) + 2, true,
        AfterPass(h, f, lists, k, acc, Some((w, r)), fuel), fuel, n)
    decreases fuel, f, 5, h.iters(InfoOf(f), lists) - k, 1
  {
    hide Exec, Steps, Fits, ScriptCode, ShapedScript, PlanScript, Runs, EachMeans, Pass, Framed, EachCode;
    var tail := TailOf(f, at, next);
    match r
    case Breaks(_) => n := EachOver(h, u, start, m, ctx, next, f, at, d, lists, k, acc, w, fuel);
    case Halts(_) =>
      n := m;
      HaltArrives(ctx, d, tail + 2, w, r, s);
      RunsDone(h, u, start, m, s, ctx, d, tail + 2, true, w, r, fuel);
    case Continues(_) =>
      var j := NextPass(h, u, ctx, next, f, at, d, lists, k, acc, w, fuel);
      n := m + j;
      RunsAfter(h, u, start, m, s, ctx, d, tail + 2, true, EachMeans(h, f, lists, k + 1, acc, w, fuel), fuel, fuel, j);
    case Gives(v) =>
      var j := NextPass(h, u, ctx, next, f, at, d, lists, k, acc + [v], w, fuel);
      n := m + j;
      RunsAfter(h, u, start, m, s, ctx, d, tail + 2, true, EachMeans(h, f, lists, k + 1, acc + [v], w, fuel), fuel,
          fuel, j);
  }

  lemma HaltArrives(ctx: List<bool>, d: State, goal: nat, w: World, r: Res, s: Machine.Run)
    requires r.Halts? && FailedWith(s, r.f, w)
    ensures Arrives(ctx, d, goal, true, w, r, s)
  {
  }

  /** From the step of the iteration on. */
  lemma {:induction false} NextPass(h: Host, u: Code, ctx: List<bool>, next: bool, f: Form, at: nat, d: State,
          lists: seq<Val>,
                                    k: nat, acc: seq<Val>, w: World, fuel: nat) returns (n: nat)
    requires EachReady(u, ctx, next, f, at, d) && k < h.iters(InfoOf(f), lists)
    ensures var tail := TailOf(f, at, next);
      Runs(h, u, Running(tail, Each(h, d, f, lists, tail, k, acc, w)), ctx, d, tail + 2, true,
          EachMeans(h, f, lists, Spot(k + 1), acc, w, fuel), fuel, n)
    decreases fuel, f, 5, h.iters(InfoOf(f), lists) - k, 0
  {
    hide Exec, Steps, Fits, ScriptCode, ShapedScript, PlanScript, Runs, ScriptMeans, Arrives, EachCode, Pass, Framed,
        Each, Directed;
    var tail, iters := TailOf(f, at, next), h.iters(f.info, lists);
    var start := Running(tail, Each(h, d, f, lists, tail, k, acc, w));
    if k + 1 >= iters {
      LastStep(h, u, ctx, next, f, at, d, lists, k, acc, w);
      n := EachOver(h, u, start, 1, ctx, next, f, at, d, lists, k, acc, w, fuel);
    } else {
      var b := h.ask(w, Bind(f.info, lists, k + 1));
      var s := StepOn(h, u, ctx, next, f, at, d, lists, k, acc, w);
      if b.1.Ok? {
        var j := PassRuns(h, u, ctx, next, f, at, d, lists, k + 1, acc, b.0, fuel);
        n := 1 + j;
        var got := AfterPass(h, f, lists, k + 1, acc, ScriptMeans(h, f.body, b.0, fuel), fuel);
        RunsAfter(h, u, start, 1, s, ctx, d, tail + 2, true, got, fuel, fuel, j);
      } else {
        n := PassEnded(h, u, start, 1, s, ctx, next, f, at, d, lists, k + 1, acc, b.0, Signal(b.1.f), fuel);
      }
    }
  }

  lemma LastStep(h: Host, u: Code, ctx: List<bool>, next: bool, f: Form, at: nat, d: State, lists: seq<Val>, k: nat,
          acc: seq<Val>, w: World)
    requires EachReady(u, ctx, next, f, at, d) && k + 1 >= h.iters(InfoOf(f), lists)
    ensures var tail := TailOf(f, at, next); var e := Each(h, d, f, lists, tail, k, acc, w);
      Steps(h, u, Running(tail, e), 1) == Now(tail + 1, e)
  {
    hide Exec, Steps, Fits, ScriptCode, ShapedScript, PlanScript, EachCode;
    var tail := TailOf(f, at, next);
    var e := Each(h, d, f, lists, tail, k, acc, w);
    EachPlaced(u, at, f.info, f.shape, ScriptCode(f.body, at + 2, next));
    AdvanceRuns(h, u.infos, f.info, at + 1, e);
    OneStep(h, u, tail, e);
  }

  /** The step that binds pass `k + 1`, or runs into a fault doing so. */
  lemma StepOn(h: Host, u: Code, ctx: List<bool>, next: bool, f: Form, at: nat, d: State, lists: seq<Val>, k: nat,
          acc: seq<Val>, w: World)
      returns (s: Machine.Run)
    requires EachReady(u, ctx, next, f, at, d) && k + 1 < h.iters(InfoOf(f), lists)
    ensures var tail := TailOf(f, at, next); var b := h.ask(w, Bind(InfoOf(f), lists, Spot(k + 1)));
      && Steps(h, u, Running(tail, Each(h, d, f, lists, tail, k, acc, w)), 1) == s
      && if b.1.Ok? then s == Now(at + 1, Each(h, d, f, lists, tail, k + 1, acc, b.0))
         else PassLed(h, d, f, lists, tail, k + 1, acc, b.0, OfReply(b.1), s)
  {
    hide Exec, Steps, Fits, ScriptCode, ShapedScript, PlanScript, EachCode, Route, Settle;
    var tail := TailOf(f, at, next);
    hide Advance, Each;
    var e, b := Each(h, d, f, lists, tail, k, acc, w), h.ask(w, Bind(f.info, lists, k + 1));
    EachPlaced(u, at, f.info, f.shape, ScriptCode(f.body, at + 2, next));
    AdvanceRuns(h, u.infos, f.info, at + 1, e);
    AdvanceEach(h, d, f, lists, tail, k, acc, w, at + 1);
    OneStep(h, u, tail, e);
    s := After(tail, Exec(h, u.infos, u.ops[tail], e));
    if b.1.Fault? { BindFaults(h, ctx, d, f, lists, tail, k + 1, acc, b.0, b.1.f); }
  }

  lemma AdvanceEach(h: Host, d: State, f: Form, lists: seq<Val>, tail: int, k: nat, acc: seq<Val>, w: World,
          body: nat)
    requires f.Foreach? && k + 1 < h.iters(InfoOf(f), lists)
    ensures var b := h.ask(w, Bind(InfoOf(f), lists, Spot(k + 1)));
      var e, e1 := Each(h, d, f, lists, tail, k, acc, w), Each(h, d, f, lists, tail, k + 1, acc, b.0);
      Lift(Advance(h, e.core, InfoOf(f), body, false, Innermost(e.loops)), e.loops)
      == match b.1
         case Ok(_) => Goto(body, e1)
         case Fault(x) => Raise(x, State(Settle(e1.core, Innermost(e1.loops)), e1.loops))
  {
    hide Settle;
  }

  lemma BindFaults(h: Host, ctx: List<bool>, d: State, f: Form, lists: seq<Val>, tail: nat, k: nat, acc: seq<Val>,
          w: World, e: Fault)
    requires f.Foreach? && Fits(ctx, d)
    ensures var p := Each(h, d, f, lists, tail, k, acc, w);
      Directed(Framed(h, d, f, lists, k, acc), tail, Spot(tail + 1), w, Signal(e),
          Route(e, State(Settle(p.core, Innermost(p.loops)), p.loops)))
  {
    hide Route, Settle, Fits, Framed;
    var p := Each(h, d, f, lists, tail, k, acc, w);
    EachFits(h, ctx, d, f, lists, tail, k, acc, w);
    SelfAlike(p);
    RaiseArrives(Cons(false, ctx), e, p.core, p, 0, true);
    PassCatches(ctx, Framed(h, d, f, lists, k, acc), tail, tail + 1, w, w, 0, true, Signal(e),
                Route(e, State(Settle(p.core, Innermost(p.loops)), p.loops)));
  }

  lemma SelfAlike(d: State)
    ensures Alike(d.core, d.core.(w := d.core.w), d.loops)
  {
  }

  /** One pass, from its body mark on. */
  lemma {:induction false} PassRuns(h: Host, u: Code, ctx: List<bool>, next: bool, f: Form, at: nat, d: State,
          lists: seq<Val>,
                                    k: nat, acc: seq<Val>, w: World, fuel: nat) returns (n: nat)
    requires EachReady(u, ctx, next, f, at, d) && k < h.iters(InfoOf(f), lists)
    ensures var tail := TailOf(f, at, next);
      Runs(h, u, Now(at + 1, Each(h, d, f, lists, tail, k, acc, w)), ctx, d, tail + 2, true,
           AfterPass(h, f, lists, k, acc, ScriptMeans(h, BodyOf(f), w, fuel), fuel), fuel, n)
    decreases fuel, f, 5, h.iters(InfoOf(f), lists) - k, 2
  {
    hide Exec, Steps, Fits, ScriptCode, ShapedScript, PlanScript, Runs, ScriptMeans, EachMeans, Arrives, EachCode,
        Framed, Each, Directed, RegionOf;
    var tail, inside := TailOf(f, at, next), Cons(false, ctx);
    var e := Each(h, d, f, lists, tail, k, acc, w);
    var start := Running(at + 1, e);
    var q := InRegion(e, RegionOf(f, e.core.site));
    OpenBody(h, u, ctx, next, f, at, d, lists, k, acc, w);
    var j := ScriptRuns(h, u, inside, next, f.body, at + 2, q, fuel);
    var got := ScriptMeans(h, f.body, w, fuel);
    if got.None? {
      StillRunning(h, u, Running(at + 2, q), inside, q, tail - 2, false, ctx, d, tail + 2, true, fuel, j);
      n := 1 + j;
      RunsAfter(h, u, start, 1, Running(at + 2, q), ctx, d, tail + 2, true, None, fuel, fuel, j);
    } else {
      var m, s := EachDirected(h, u, ctx, next, f, at, d, lists, k, acc, w, got.value.0, got.value.1, fuel, j);
      Chain(h, u, start, 1, Running(at + 2, q), m, s);
      n := PassEnded(h, u, start, 1 + m, s, ctx, next, f, at, d, lists, k, acc, got.value.0, got.value.1, fuel);
    }
  }

  function RegionOf(f: Form, site: int): Region {
    if ShapeOf(f).framed then BodyFramed(site, ShapeOf(f).lmap) else Body(site)
  }

  function InRegion(p: State, r: Region): State { State(p.core.(bodies := Cons(r, p.core.bodies)), p.loops) }

  lemma OpenBody(h: Host, u: Code, ctx: List<bool>, next: bool, f: Form, at: nat, d: State, lists: seq<Val>, k: nat,
          acc: seq<Val>, w: World)
    requires EachReady(u, ctx, next, f, at, d)
    ensures var e := Each(h, d, f, lists, TailOf(f, at, next), k, acc, w);
        var q := InRegion(e, RegionOf(f, e.core.site));
      Steps(h, u, Now(at + 1, e), 1) == Now(at + 2, q) && Fits(Cons(false, ctx), q) && q.core.w == w
    ensures Placed(u, at + 2, ScriptCode(BodyOf(f), at + 2, next))
  {
    hide Exec, Steps, Fits, ScriptCode, ShapedScript, PlanScript, EachCode;
    var tail := TailOf(f, at, next);
    var e := Each(h, d, f, lists, tail, k, acc, w);
    EachPlaced(u, at, f.info, f.shape, ScriptCode(f.body, at + 2, next));
    EachFits(h, ctx, d, f, lists, tail, k, acc, w);
    MarkStep(h, u, Cons(false, ctx), e, at + 1, if f.shape.framed then BodyMarkFramed else BodyMark,
        RegionOf(f, e.core.site));
  }

  /** A pass's body that ran. */
  lemma EachDirected(h: Host, u: Code, ctx: List<bool>, next: bool, f: Form, at: nat, d: State, lists: seq<Val>,
          k: nat, acc: seq<Val>,
                     w0: World, w: World, r: Res, fuel: nat, n: nat) returns (m: nat, s: Machine.Run)
    requires EachReady(u, ctx, next, f, at, d)
    requires var e := Each(h, d, f, lists, TailOf(f, at, next), k, acc, w0);
        var q := InRegion(e, RegionOf(f, e.core.site));
      Runs(h, u, Now(at + 2, q), Cons(false, ctx), q, TailOf(f, at, next) - 2, false, Some((w, r)), fuel, n)
    ensures var tail := TailOf(f, at, next); var e := Each(h, d, f, lists, tail, k, acc, w0);
      && Steps(h, u, Now(at + 2, InRegion(e, RegionOf(f, e.core.site))), m) == s && m > 0
      && PassLed(h, d, f, lists, tail, k, acc, w, r, s)
  {
    hide Steps, Fits, ScriptCode, ShapedScript, PlanScript, EachCode, Exec, RegionOf, Framed;
    var tail, inside := TailOf(f, at, next), Cons(false, ctx);
    var e := Each(h, d, f, lists, tail, k, acc, w0);
    var q := InRegion(e, RegionOf(f, e.core.site));
    EachPlaced(u, at, f.info, f.shape, ScriptCode(f.body, at + 2, next));
    EachFits(h, ctx, d, f, lists, tail, k, acc, w0);
    m, s := n, Steps(h, u, Running(at + 2, q), n);
    assert Steps(h, u, Running(at + 2, q), n) == s;
    if r.Gives? {
      GatherAndJump(h, u, ctx, f, d, lists, tail, k, acc, w, r.v, s.d.core.site);
      var t := Running(tail, Each(h, d, f, lists, tail, k, acc + [r.v], w));
      assert s == Running(tail - 2, Given(h, d, f, lists, tail, k, acc, w, r.v, s.d.core.site))
          by { GivenState(h, d, f, lists, tail, k, acc, w0, w, r.v, s); }
      Chain(h, u, Running(at + 2, q), n, s, 2, t);
      m, s := n + 2, t;
    } else {
      RegionAlike(inside, e, RegionOf(f, e.core.site), w);
      Outward(inside, e, q, tail - 2, tail - 2, false, false, w, r, s);
      PassCatches(ctx, Framed(h, d, f, lists, k, acc), tail, tail + 1, w0, w, tail - 2, false, r, s);
    }
  }

  /** A pass's body has just given `v`. */
  function Given(h: Host, d: State, f: Form, lists: seq<Val>, tail: int, k: int, acc: seq<Val>, w: World, v: Val,
          site: int): State
  {
    var e := Each(h, d, f, lists, tail, k, acc, w);
    State(e.core.(site := site, stack := Cons(v, d.core.stack), bodies :=
        Cons(RegionOf(f, d.core.site), d.core.bodies)), e.loops)
  }

  lemma GivenState(h: Host, d: State, f: Form, lists: seq<Val>, tail: nat, k: nat, acc: seq<Val>, w0: World, w: World,
          v: Val, s: Machine.Run)
    requires f.Foreach?
    requires var e := Each(h, d, f, lists, tail, k, acc, w0); var q := InRegion(e, RegionOf(f, e.core.site));
      s.Running? && s.d == State(q.core.(w := w, stack := Cons(v, q.core.stack), site := s.d.core.site), q.loops)
    ensures s.d == Given(h, d, f, lists, tail, k, acc, w, v, s.d.core.site)
  {
  }

  lemma RegionAlike(ctx: List<bool>, e: State, r: Region, w: World)
    requires Fits(ctx, e)
    ensures Alike(InRegion(e, r).core.(w := w), e.core.(w := w), e.loops)
  {
  }

  /** The value is kept or dropped, the region closed, and on to the step. */
  lemma GatherAndJump(h: Host, u: Code, ctx: List<bool>, f: Form, d: State, lists: seq<Val>, tail: nat, k: nat,
          acc: seq<Val>, w: World, v: Val, site: int)
    requires f.Foreach? && Fits(ctx, d) && tail >= 2 && tail - 1 < |u.ops|
    requires OpAt(u.ops, tail - 2) == (if ShapeOf(f).lmap then Loop(ForeachCollect) else Pop)
        && OpAt(u.ops, tail - 1) == Jump(tail)
    ensures Steps(h, u, Now(tail - 2, Given(h, d, f, lists, tail, k, acc, w, v, site)), 2)
        == Running(tail, Each(h, d, f, lists, tail, k, acc + [v], w))
  {
    hide Exec, Steps;
    var g, e := Given(h, d, f, lists, tail, k, acc, w, v, site), Each(h, d, f, lists, tail, k, acc + [v], w);
    var mid := State(e.core.(site := site, bodies := Cons(RegionOf(f, d.core.site), d.core.bodies)), e.loops);
    GivenFits(h, ctx, d, f, lists, tail, k, acc, w, v, site);
    if f.shape.lmap { CollectRuns(h, u.infos, g); } else { PopRuns(h, u.infos, g); }
    OneStep(h, u, tail - 2, g);
    JumpRuns(h, u.infos, tail, mid);
    OneStep(h, u, tail - 1, mid);
    Chain(h, u, Running(tail - 2, g), 1, Running(tail - 1, mid), 1, Running(tail, e));
  }

  lemma GivenFits(h: Host, ctx: List<bool>, d: State, f: Form, lists: seq<Val>, tail: nat, k: nat, acc: seq<Val>,
          w: World, v: Val, site: int)
    requires f.Foreach? && Fits(ctx, d)
    ensures Fits(Cons(false, ctx), Given(h, d, f, lists, tail, k, acc, w, v, site))
    ensures var e := Each(h, d, f, lists, tail, k, acc + [v], w);
      Fits(Cons(false, ctx), State(e.core.(site := site, bodies := Cons(RegionOf(f, d.core.site), d.core.bodies)),
          e.loops))
  {
    var e := Each(h, d, f, lists, tail, k, acc, w);
    EachFits(h, ctx, d, f, lists, tail, k, acc, w);
    CtxOpen(Cons(false, ctx), e.core.bodies, e.core.stack, e.loops, RegionOf(f, d.core.site));
    CtxPush(Cons(false, ctx), Cons(RegionOf(f, d.core.site), e.core.bodies), e.core.stack, e.loops, v);
  }

  // ── the start of an iteration ──

  lemma StartRuns(h: Host, infos: seq<ForeachInfo>, d: State, f: Form, w: World, lists: seq<Val>, tail: nat)
    requires f.Foreach? && InfoOf(f) < |infos| && infos[InfoOf(f)] == ShapeOf(f) && ShapeOf(f).groups == |lists|
    ensures var r := h.ask(w, OpenLists(InfoOf(f), lists));
      var e := Each(h, d, f, lists, tail, 0, [], r.0);
      var b := h.ask(r.0, Bind(InfoOf(f), lists, 0));
      Exec(h, infos, Loop(ForeachStart(InfoOf(f), tail, tail + 1)), Stacked(d, w, lists))
      == if r.1.Fault? then Raise(r.1.f, State(Settle(d.core.(w := r.0), Innermost(d.loops)), d.loops))
         else if h.iters(InfoOf(f), lists) == 0 then Goto(tail + 1, e)
         else if b.1.Ok? then Fall(Each(h, d, f, lists, tail, 0, [], b.0))
         else var p := Each(h, d, f, lists, tail, 0, [], b.0);
             Raise(b.1.f, State(Settle(p.core, Innermost(p.loops)), p.loops))
  {
    hide ExecCore, Settle, TakeArgs;
    TakePushed(d.core.stack, lists);
  }

  lemma EachRuns(h: Host, u: Code, ctx: List<bool>, next: bool, f: Form, at: nat, d: State, w: World, lists: seq<Val>,
          fuel: nat) returns (n: nat)
    requires EachReady(u, ctx, next, f, at, d) && ShapeOf(f).groups == |lists|
    ensures var o := Ask(h, w, OpenLists(InfoOf(f), lists));
      Runs(h, u, Running(at, Stacked(d, w, lists)), ctx, d, TailOf(f, at, next) + 2, true,
           if !o.1.Gives? then Some(o) else EachMeans(h, f, lists, Spot(0), [], o.0, fuel), fuel, n)
    decreases fuel, f, 6
  {
    hide Exec, Steps, Fits, ScriptCode, ShapedScript, PlanScript, Runs, ScriptMeans, Arrives, EachCode, Framed, Each,
        Directed, Route, Settle, Stacked;
    var tail := TailOf(f, at, next);
    var r := h.ask(w, OpenLists(f.info, lists));
    var s0 := Stacked(d, w, lists);
    EachPlaced(u, at, f.info, f.shape, ScriptCode(f.body, at + 2, next));
    StackedFits(ctx, d, w, lists);
    OneStep(h, u, at, s0);
    StartRuns(h, u.infos, d, f, w, lists, tail);
    var s := After(at, Exec(h, u.infos, u.ops[at], s0));
    if r.1.Fault? {
      n := 1;
      OpenFaults(ctx, d, tail + 2, r.0, r.1.f);
      RunsDone(h, u, Running(at, s0), 1, s, ctx, d, tail + 2, true, r.0, Signal(r.1.f), fuel);
    } else if h.iters(f.info, lists) == 0 {
      n := EachOver(h, u, Running(at, s0), 1, ctx, next, f, at, d, lists, 0, [], r.0, fuel);
    } else {
      var b := h.ask(r.0, Bind(f.info, lists, 0));
      if b.1.Ok? {
        var j := PassRuns(h, u, ctx, next, f, at, d, lists, 0, [], b.0, fuel);
        n := 1 + j;
        RunsAfter(h, u, Running(at, s0), 1, s, ctx, d, tail + 2, true,
                  AfterPass(h, f, lists, 0, [], ScriptMeans(h, f.body, b.0, fuel), fuel), fuel, fuel, j);
      } else {
        BindFaults(h, ctx, d, f, lists, tail, 0, [], b.0, b.1.f);
        n := PassEnded(h, u, Running(at, s0), 1, s, ctx, next, f, at, d, lists, 0, [], b.0, Signal(b.1.f), fuel);
      }
    }
  }

  lemma OpenFaults(ctx: List<bool>, d: State, goal: nat, w: World, f: Fault)
    requires Fits(ctx, d)
    ensures Arrives(ctx, d, goal, true, w, Signal(f),
        Route(f, State(Settle(d.core.(w := w), Innermost(d.loops)), d.loops)))
  {
    hide Arrives, Route, Settle;
    RaiseArrives(ctx, f, d.core.(w := w), d, goal, true);
  }

  // ── every form ──

  lemma {:induction false} WhileForm(h: Host, u: Code, ctx: List<bool>, next: bool, f: Form, at: nat, d: State,
          fuel: nat) returns (n: nat)
    requires f.While? && Fits(ctx, d) && FitForm(u.infos, f, next, ctx) && Placed(u, at, FormCode(f, at, next))
    ensures Runs(h, u, Running(at, d), ctx, d, at + |FormCode(f, at, next)|, true, FormMeans(h, f, d.core.w, fuel),
        fuel, n)
    decreases fuel, f, 8
  {
    hide Exec, Runs, Fits, Steps, ScriptCode, ShapedScript, PlanScript, TestCode, ShapedTest, PlanTest, LoopHead,
        WhileMeans;
    var test := TestCode(f.test, at + 1, false);
    var body := ScriptCode(f.body, at + |test| + 2, false);
    var end := at + |test| + |body| + 4;
    HeadSize(test, body, at + 1, end);
    WhilePlaced(u, at, test, body);
    EnterLoop(h, u, ctx, at, d, at + 1, end);
    var k := WhileRuns(h, u, ctx, f, at, d, d.core.w, fuel);
    n := 1 + k;
    RunsAfter(h, u, Running(at, d), 1, Running(at + 1, Pass(d, at + 1, end, d.core.w)), ctx, d, end + 2, true,
              WhileMeans(h, f, d.core.w, fuel), fuel, fuel, k);
  }

  lemma {:induction false} ForForm(h: Host, u: Code, ctx: List<bool>, next: bool, f: Form, at: nat, d: State, fuel: nat)
    returns (n: nat)
    requires f.For? && Fits(ctx, d) && FitForm(u.infos, f, next, ctx) && Placed(u, at, FormCode(f, at, next))
    ensures Runs(h, u, Running(at, d), ctx, d, at + |FormCode(f, at, next)|, true, FormMeans(h, f, d.core.w, fuel),
        fuel, n)
    decreases fuel, f, 8
  {
    hide Exec, Runs, Fits, Steps, ScriptCode, ShapedScript, PlanScript, TestCode, ShapedTest, PlanTest, LoopHead,
        LoopTail, ForMeans, ScriptMeans, Placed;
    var s := ScriptCode(f.start, at + 1, false);
    var enter := at + |s| + 3;
    var p := PlanFor(f, enter);
    ForSize(p.test, p.body, p.next, enter);
    ForSplit(u, at, s, ForCode(p.test, p.body, p.next, enter));
    var k := BracketRuns(h, u, ctx, false, f.start, ExprMark, Region.Expr(d.core.site), at, d, fuel);
    var got := ScriptMeans(h, f.start, d.core.w, fuel);
    if got.Some? && got.value.1.Gives? {
      var d1 := Dropped(h, u, Running(at, d), ctx, d, enter - 1, got.value.0, got.value.1.v, fuel, k);
      var j := LoopRuns(h, u, ctx, f, enter, d, d1, fuel);
      n := k + 1 + j;
      RunsAfter(h, u, Running(at, d), k + 1, Running(enter, d1), ctx, d, p.end + 2, true,
                ForMeans(h, f, got.value.0, fuel), fuel, fuel, j);
    } else {
      n := k;
      Elsewhere(h, u, Running(at, d), ctx, d, enter - 1, p.end + 2, true, true, got, fuel, k);
    }
  }

  /** A `for` from its loop's entry on. */
  lemma LoopRuns(h: Host, u: Code, ctx: List<bool>, f: Form, enter: nat, d: State, d1: State, fuel: nat)
    returns (n: nat)
    requires ForReady(u, ctx, f, enter, d1) && d1 == State(d.core.(w := d1.core.w), d.loops)
    ensures Runs(h, u, Running(enter, d1), ctx, d, PlanFor(f, enter).end + 2, true, ForMeans(h, f, d1.core.w, fuel),
        fuel, n)
    decreases fuel, f, 7, 1
  {
    hide Exec, Runs, Fits, Steps, ScriptCode, ShapedScript, PlanScript, TestCode, ShapedTest, PlanTest, ForCode,
        ForMeans, Placed, Pass;
    var p, w := PlanFor(f, enter), d1.core.w;
    var inner := Running(enter + 1, Pass(d1, p.tail, p.end, w));
    ForPlaced(u, enter, p.test, p.body, p.next);
    EnterLoop(h, u, ctx, enter, d1, p.tail, p.end);
    var j := ForRuns(h, u, ctx, f, enter, d1, w, fuel);
    n := 1 + j;
    Otherwise(h, u, inner, ctx, d, d1, p.end + 2, ForMeans(h, f, w, fuel), fuel, j);
    RunsAfter(h, u, Running(enter, d1), 1, inner, ctx, d, p.end + 2, true, ForMeans(h, f, w, fuel), fuel, fuel, j);
  }

  /** A value dropped: only the world is new. */
  lemma Dropped(h: Host, u: Code, start: Machine.Run, ctx: List<bool>, d: State, mid: nat, w: World, v: Val, fuel: nat,
          n: nat) returns (d1: State)
    requires Fits(ctx, d) && Runs(h, u, start, ctx, d, mid, true, Some((w, Gives(v))), fuel, n)
    requires mid < |u.ops| && OpAt(u.ops, mid) == Pop
    ensures d1 == State(d.core.(w := w), d.loops) && Fits(ctx, d1)
    ensures Steps(h, u, start, n + 1) == Now(mid + 1, d1)
  {
    hide Runs, Fits, Steps;
    Loosen(h, u, start, ctx, d, mid, Some((w, Gives(v))), fuel, n);
    KeepsSite(h, u, start, ctx, d, mid, w, v, fuel, n);
    d1 := NextCommand(h, u, start, ctx, d, mid, w, v, fuel, n);
    SiteBack(h, u, start, ctx, d, mid, w, v, n, d1);
  }

  lemma KeepsSite(h: Host, u: Code, start: Machine.Run, ctx: List<bool>, d: State, mid: nat, w: World, v: Val,
          fuel: nat, n: nat)
    requires Runs(h, u, start, ctx, d, mid, true, Some((w, Gives(v))), fuel, n)
    ensures Steps(h, u, start, n) == Running(mid, Holding(d, w, v))
  {
    hide Exec;
  }

  lemma SiteBack(h: Host, u: Code, start: Machine.Run, ctx: List<bool>, d: State, mid: nat, w: World, v: Val, n: nat,
          d1: State)
    requires Fits(ctx, d) && Steps(h, u, start, n) == Running(mid, Holding(d, w, v))
    requires mid < |u.ops| && OpAt(u.ops, mid) == Pop && Steps(h, u, start, n + 1) == Now(mid + 1, d1)
    ensures d1 == State(d.core.(w := w), d.loops)
  {
    hide Exec;
    StepsAdd(h, u, start, n, 1);
    PopRuns(h, u.infos, Holding(d, w, v));
    assert Steps(h, u, Running(mid, Holding(d, w, v)), 1) == Step(h, u, Running(mid, Holding(d, w, v)));
  }

  lemma {:induction false} ForeachForm(h: Host, u: Code, ctx: List<bool>, next: bool, f: Form, at: nat, d: State,
          fuel: nat) returns (n: nat)
    requires f.Foreach? && Fits(ctx, d) && FitForm(u.infos, f, next, ctx) && Placed(u, at, FormCode(f, at, next))
    ensures Runs(h, u, Running(at, d), ctx, d, at + |FormCode(f, at, next)|, true, FormMeans(h, f, d.core.w, fuel),
        fuel, n)
    decreases fuel, f, 8, 0
  {
    hide Exec, Runs, Fits, Steps, ScriptCode, ShapedScript, PlanScript, WordsCode, ShapedWords, PlanWords, WordsMean,
        EachMeans, EachCode, Placed;
    var data := WordsCode(f.data, at, next);
    var enter := at + |data|;
    var body := ScriptCode(f.body, enter + 2, next);
    EachSize(f.info, f.shape, body, enter);
    PlacedSplit(u, at, data, EachCode(f.info, f.shape, body, enter));
    var k := WordsRun(h, u, ctx, next, f.data, at, d, fuel);
    var got := WordsMean(h, f.data, d.core.w, fuel);
    var goal := enter + |body| + 6;
    if got.Some? && got.value.1.Many? {
      var (w, vs) := (got.value.0, got.value.1.vs);
      CountWords(h, f.data, d.core.w, fuel);
      ManyTook(h, u, Running(at, d), ctx, d, enter, w, vs, fuel, k);
      var j := EachRuns(h, u, ctx, next, f, enter, d, w, vs, fuel);
      n := k + j;
      RunsAfter(h, u, Running(at, d), k, Running(enter, Stacked(d, w, vs)), ctx, d, goal, true,
          FormMeans(h, f, d.core.w, fuel), fuel, fuel, j);
    } else {
      n := k;
      ManyFell(h, u, Running(at, d), ctx, d, enter, goal, true, got, fuel, k);
    }
  }

  lemma {:induction false} FormRuns(h: Host, u: Code, ctx: List<bool>, next: bool, f: Form, at: nat, d: State,
          fuel: nat) returns (n: nat)
    requires Fits(ctx, d) && FitForm(u.infos, f, next, ctx) && Placed(u, at, FormCode(f, at, next))
    ensures Runs(h, u, Running(at, d), ctx, d, at + |FormCode(f, at, next)|, false, FormMeans(h, f, d.core.w, fuel),
        fuel, n)
    decreases fuel, f, 10
  {
    hide Exec, Runs, Fits, Steps, Placed, WordCode, WordsCode, TestCode, ScriptCode, ArmsCode, ShapedWord, PlanWord,
        ShapedWords, PlanWords, ShapedTest, PlanTest, ShapedScript, PlanScript, ShapedArms, PlanArms, WordMeans,
        WordsMean, TestMeans, ScriptMeans, ArmsMean, WhileMeans, ForMeans, EachMeans, LoopHead, EachCode;
    var start, goal := Running(at, d), at + |FormCode(f, at, next)|;
    match f
    case Set(x, y) => n := SetRuns(h, u, ctx, next, x, y, at, d, fuel);
    case Get(x) => n := GetRuns(h, u, ctx, x, at, d, fuel);
    case Bump(x, k) => BumpRuns(h, u, ctx, x, k, at, d, fuel); n := 1;
    case Extend(x, y) => n := ExtendRuns(h, u, ctx, next, x, y, at, d, fuel);
    case Calc(t) => n := CalcRuns(h, u, ctx, next, t, at, d, fuel);
    case Leave => LeaveRuns(h, u, ctx, at, d, fuel); n := 1;
    case Again => if next { EscapeRuns(h, u, ctx, at, d, fuel); n := 2; } else { AgainRuns(h, u, ctx, at, d, fuel);
        n := 1; }
    case Give(y) => n := GiveRuns(h, u, ctx, next, y, at, d, fuel);
    case Stop(code) => StopRuns(h, u, ctx, code, at, d, fuel); n := 1;
    case Run(dyn, id, ws) => n := CommandRuns(h, u, ctx, next, dyn, id, ws, at, d, fuel);
    case _ => n := ControlRuns(h, u, ctx, next, f, at, d, fuel);
  }

  lemma GetRuns(h: Host, u: Code, ctx: List<bool>, x: Loc, at: nat, d: State, fuel: nat) returns (n: nat)
    requires Fits(ctx, d) && Placed(u, at, [Load(x)])
    ensures Runs(h, u, Running(at, d), ctx, d, at + 1, false, Some(Ask(h, d.core.w, Request.Read(x))), fuel, n)
  {
    hide Exec, Runs, Fits;
    PlacedAt(u, at, [Load(x)], 0);
    ReadWord(h, u, ctx, d, at, x, fuel);
    n := 1;
    Loosen(h, u, Running(at, d), ctx, d, at + 1, Some(Ask(h, d.core.w, Request.Read(x))), fuel, 1);
  }

  lemma CalcRuns(h: Host, u: Code, ctx: List<bool>, next: bool, t: Test, at: nat, d: State, fuel: nat) returns (n: nat)
    requires Fits(ctx, d) && FitTest(u.infos, t, next, ctx) && Placed(u, at, TestCode(t, at, next))
    ensures Runs(h, u, Running(at, d), ctx, d, at + |TestCode(t, at, next)|, false, TestMeans(h, t, d.core.w, fuel),
        fuel, n)
    decreases fuel, t, 7
  {
    hide Exec, Runs, Fits, TestCode, TestMeans, ShapedTest, PlanTest, Placed;
    n := TestRuns(h, u, ctx, next, t, at, d, fuel);
    Loosen(h, u, Running(at, d), ctx, d, at + |TestCode(t, at, next)|, TestMeans(h, t, d.core.w, fuel), fuel, n);
  }

  lemma {:induction false} ControlRuns(h: Host, u: Code, ctx: List<bool>, next: bool, f: Form, at: nat, d: State,
          fuel: nat) returns (n: nat)
    requires f.If? || f.While? || f.For? || f.Foreach?
    requires Fits(ctx, d) && FitForm(u.infos, f, next, ctx) && Placed(u, at, FormCode(f, at, next))
    ensures Runs(h, u, Running(at, d), ctx, d, at + |FormCode(f, at, next)|, false, FormMeans(h, f, d.core.w, fuel),
        fuel, n)
    decreases fuel, f, 9
  {
    hide Exec, Runs, Fits, FormCode, FormMeans, ShapedForm, PlanForm, Placed;
    if f.If? { n := IfRuns(h, u, ctx, next, f, at, d, fuel); }
    else if f.While? { n := WhileForm(h, u, ctx, next, f, at, d, fuel); }
    else if f.For? { n := ForForm(h, u, ctx, next, f, at, d, fuel); }
    else { n := ForeachForm(h, u, ctx, next, f, at, d, fuel); }
    Loosen(h, u, Running(at, d), ctx, d, at + |FormCode(f, at, next)|, FormMeans(h, f, d.core.w, fuel), fuel, n);
  }
}

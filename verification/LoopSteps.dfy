/** The stretches compiled control flow is made of: a test and its branch, a
    loop's passes, the ways out of a loop. */
module LoopSteps {
  import opened Options
  import opened Opcodes
  import opened Machine
  import opened Evaluate
  import opened Arrivals
  import opened Instructions

  // ── branches ──

  /** `d` with another world and perhaps the region a branch opens. */
  function Entered(d: State, w: World, open: bool): State {
    State(d.core.(w := w, bodies := if open then Cons(Body(d.core.site), d.core.bodies) else d.core.bodies), d.loops)
  }

  lemma EnteredFits(ctx: List<bool>, d: State, w: World, open: bool)
    requires Fits(ctx, d)
    ensures Fits(ctx, Entered(d, w, open))
    ensures Alike(Entered(d, w, open).core, d.core.(w := w), d.loops)
  {
    if open { CtxOpen(ctx, d.core.bodies, d.core.stack, d.loops, Body(d.core.site)); }
  }

  /** A test's value, consumed by its branch. */
  lemma BranchStep(h: Host, u: Code, ctx: List<bool>, d: State, w: World, v: Val, mid: nat, t: nat, goal: nat,
          keep: bool)
    requires Fits(ctx, d) && mid < |u.ops| && OpAt(u.ops, mid) == JumpIf(false, t)
    ensures var s := Running(mid, State(d.core.(w := w, stack := Cons(v, d.core.stack)), d.loops));
      var r := Steps(h, u, s, 1);
      match Choose(h, Gives(v))
        case Chose(b) => r == Now(if b then mid + 1 else t, Entered(d, w, b))
        case Neither(x) => Arrives(ctx, d, goal, keep, w, x, r)
  {
    hide Exec, Steps, Route, Truth;
    var d1 := State(d.core.(w := w, stack := Cons(v, d.core.stack)), d.loops);
    CtxPush(ctx, d.core.bodies, d.core.stack, d.loops, v);
    OneStep(h, u, mid, d1);
    JumpIfRuns(h, u.infos, false, t, d1);
    if Truth(h, v).Objects? { RaiseArrives(ctx, Truth(h, v).f, d.core.(w := w), d, goal, keep); }
  }

  /** A test that ran, and the branch after it when it gave a value. */
  lemma TestThen(h: Host, u: Code, start: Machine.Run, ctx: List<bool>, d: State, mid: nat, t: nat,
                 goal: nat, keep: bool, got: Got, fuel: nat, n: nat) returns (m: nat)
    requires Runs(h, u, start, ctx, d, mid, true, got, fuel, n) && got.Some?
    requires Fits(ctx, d) && mid < |u.ops| && OpAt(u.ops, mid) == JumpIf(false, t)
    ensures var (w, r) := got.value; var s := Steps(h, u, start, m);
      match Choose(h, r)
        case Chose(b) => s == Now(if b then mid + 1 else t, Entered(d, w, b))
        case Neither(x) => Arrives(ctx, d, goal, keep, w, x, s)
    ensures m > 0
  {
    hide Steps, Truth, Entered;
    var (w, r) := got.value;
    if r.Gives? {
      var s := Steps(h, u, start, n);
      BranchStep(h, u, ctx, d, w, r.v, mid, t, goal, keep);
      Chain(h, u, start, n, s, 1, Steps(h, u, s, 1));
      m := n + 1;
    } else {
      m := n;
      Outward(ctx, d, d, goal, mid, keep, true, w, r, Steps(h, u, start, n));
    }
  }

  // ── passes of while and for ──

  /** Inside the loop entered in `d`, between two of its parts. */
  function Pass(d: State, cont: int, brk: int, w: World): State {
    State(d.core.(w := w), Cons(LoopFrame(Spot(cont), Spot(brk), EntryNow(d.core)), d.loops))
  }

  lemma PassFits(ctx: List<bool>, d: State, cont: nat, brk: nat, w: World)
    requires Fits(ctx, d)
    ensures Fits(Cons(false, ctx), Pass(d, cont, brk, w))
  {
    CtxEnter(ctx, d.core.bodies, d.core.stack, d.loops, LoopFrame(cont, brk, EntryNow(d.core)));
  }

  lemma EnterLoop(h: Host, u: Code, ctx: List<bool>, at: nat, d: State, cont: nat, brk: nat)
    requires Fits(ctx, d) && at < |u.ops| && OpAt(u.ops, at) == Loop(LoopEnter(cont, brk))
    ensures Steps(h, u, Running(at, d), 1) == Now(at + 1, Pass(d, cont, brk, d.core.w))
  {
    hide ExecCore;
    OneStep(h, u, at, d);
  }

  /** A signal caught inside the loop: on to its continue or its break place. */
  lemma PassCatches(ctx: List<bool>, d: State, cont: nat, brk: nat, w0: World, w: World, goal: nat, keep: bool, r: Res,
          s: Machine.Run)
    requires Arrives(Cons(false, ctx), Pass(d, cont, brk, w0), goal, keep, w, r, s) && !r.Gives?
    ensures r.Breaks? ==> s == Running(brk, Pass(d, cont, brk, w))
    ensures r.Continues? ==> s == Running(cont, Pass(d, cont, brk, w))
    ensures r.Halts? ==> FailedWith(s, r.f, w)
  {
    TruncateSame(d.core.bodies);
    TruncateSame(d.core.stack);
  }

  /** The end of a loop: its frame goes, its empty value comes. */
  lemma LoopEnds(h: Host, u: Code, ctx: List<bool>, end: nat, d: State, cont: nat, brk: nat, w: World)
    requires Fits(ctx, d) && end + 1 < |u.ops| && OpAt(u.ops, end) == Loop(LoopExit)
        && OpAt(u.ops, end + 1) == Push(Empty)
    ensures Steps(h, u, Running(end, Pass(d, cont, brk, w)), 2)
        == Now(end + 2, State(d.core.(w := w, stack := Cons(Blank(h), d.core.stack)), d.loops))
  {
    hide ExecCore, Steps;
    var p, out := Pass(d, cont, brk, w), State(d.core.(w := w), d.loops);
    PassFits(ctx, d, cont, brk, w);
    OneStep(h, u, end, p);
    PushRuns(h, u.infos, Empty, out);
    OneStep(h, u, end + 1, out);
    Chain(h, u, Running(end, p), 1, Running(end + 1, out), 1,
          Running(end + 2, State(d.core.(w := w, stack := Cons(Blank(h), d.core.stack)), d.loops)));
  }

  /** A body's value dropped, its region closed, and back to `t`. */
  lemma DropAndJump(h: Host, u: Code, ctx: List<bool>, pc: nat, d: State, r: Region, w: World, v: Val, site: int,
          t: nat)
    requires Fits(ctx, d) && d.loops.Cons? && pc + 1 < |u.ops| && OpAt(u.ops, pc) == Pop
        && OpAt(u.ops, pc + 1) == Jump(t)
    requires r.site == d.core.site
    ensures var s := Running(pc, State(d.core.(w := w, site := site, stack := Cons(v, d.core.stack), bodies :=
        Cons(r, d.core.bodies)), d.loops));
      Steps(h, u, s, 2) == Running(t, State(d.core.(w := w), d.loops))
  {
    hide Exec, Steps;
    var d0 := State(d.core.(w := w, site := site, bodies := Cons(r, d.core.bodies)), d.loops);
    var d1 := State(d0.core.(stack := Cons(v, d.core.stack)), d.loops);
    var ctx1 := Cons(r.Next? || ctx.head, ctx.tail);
    CtxNext(ctx, d.core.bodies, d.core.stack, d.loops, r);
    CtxPush(ctx1, d0.core.bodies, d.core.stack, d.loops, v);
    PopRuns(h, u.infos, d1);
    OneStep(h, u, pc, d1);
    JumpRuns(h, u.infos, t, d0);
    OneStep(h, u, pc + 1, d0);
    Chain(h, u, Running(pc, d1), 1, Running(pc + 1, d0), 1, Running(t, State(d.core.(w := w), d.loops)));
  }

  /** The next script opens its region at the start of a pass. */
  lemma OpenNext(h: Host, u: Code, ctx: List<bool>, at: nat, d: State, cont: nat, brk: nat, w: World)
    requires Fits(ctx, d) && at < |u.ops| && OpAt(u.ops, at) == Mark(NextMark)
    ensures var p := Pass(d, cont, brk, w); var q :=
        State(p.core.(bodies := Cons(Region.Next(d.core.site), d.core.bodies)), p.loops);
      Steps(h, u, Running(at, p), 1) == Now(at + 1, q) && Fits(Cons(true, ctx), q)
  {
    hide Exec, Steps;
    var p := Pass(d, cont, brk, w);
    PassFits(ctx, d, cont, brk, w);
    MarkRuns(h, u.infos, NextMark, p);
    OneStep(h, u, at, p);
    CtxNext(Cons(false, ctx), p.core.bodies, p.core.stack, p.loops, Region.Next(d.core.site));
  }

  /** From the next script a `continue` goes on outside the loop. */
  lemma NextCatches(ctx: List<bool>, d: State, cont: nat, brk: nat, w0: World, w: World, goal: nat, keep: bool, r: Res,
          s: Machine.Run,
                    outer: nat, okeep: bool)
    requires var p := Pass(d, cont, brk, w0);
      var q := State(p.core.(bodies := Cons(Region.Next(d.core.site), d.core.bodies)), p.loops);
      Arrives(Cons(true, ctx), q, goal, keep, w, r, s) && !r.Gives?
    ensures r.Breaks? ==> s == Running(brk, Pass(d, cont, brk, w))
    ensures !r.Breaks? ==> Arrives(ctx, d, outer, okeep, w, r, s)
  {
    TruncateSame(d.core.bodies);
    TruncateSame(d.core.stack);
    var p := Pass(d, cont, brk, w0);
    var q := State(p.core.(bodies := Cons(Region.Next(d.core.site), d.core.bodies)), p.loops);
    if r.Continues? {
      SameContinue(ctx, r.f, Cut(q.core.(w := w), p.loops.head.at), d.core.(w := w), d.loops);
    }
  }

  // ── what a pass does with a result ──

  /** On to the continue place, to the break place, or out of the unit. */
  ghost predicate Directed(d: State, cont: nat, brk: nat, w: World, r: Res, s: Machine.Run) {
    match r
    case Breaks(_) => s == Running(brk, Pass(d, cont, brk, w))
    case Halts(f) => FailedWith(s, f, w)
    case _ => s == Running(cont, Pass(d, cont, brk, w))
  }

  /** A body that ran: its value is dropped, its signals are the loop's. */
  lemma BodyDirected(h: Host, u: Code, start: Machine.Run, ctx: List<bool>, d: State, cont: nat, brk: nat, w0: World,
          end: nat,
                     w: World, r: Res, fuel: nat, n: nat) returns (m: nat, s: Machine.Run)
    requires Fits(ctx, d) && end + 1 < |u.ops| && OpAt(u.ops, end) == Pop && OpAt(u.ops, end + 1) == Jump(cont)
    requires Runs(h, u, start, Cons(false, ctx), Entered(Pass(d, cont, brk, w0), w0, true), end, false, Some((w, r)),
        fuel, n)
    ensures Steps(h, u, start, m) == s && m > 0 && Directed(d, cont, brk, w, r, s)
  {
    hide Steps, Fits;
    var inside, p := Cons(false, ctx), Pass(d, cont, brk, w0);
    PassFits(ctx, d, cont, brk, w0);
    s := Steps(h, u, start, n);
    m := n;
    if r.Gives? {
      DropAndJump(h, u, inside, end, p, Body(d.core.site), w, r.v, s.d.core.site, cont);
      Chain(h, u, start, n, s, 2, Running(cont, Pass(d, cont, brk, w)));
      m, s := n + 2, Running(cont, Pass(d, cont, brk, w));
    } else {
      EnteredAlike(inside, p, w0, w);
      Outward(inside, p, Entered(p, w0, true), end, end, false, false, w, r, s);
      PassCatches(ctx, d, cont, brk, w0, w, end, false, r, s);
    }
  }

  lemma EnteredAlike(ctx: List<bool>, d: State, w0: World, w: World)
    requires Fits(ctx, d)
    ensures Alike(Entered(d, w0, true).core.(w := w), d.core.(w := w), d.loops)
  {
  }

  /** A loop that is done with: broken out of, or the unit halted. */
  lemma LoopLeft(h: Host, u: Code, start: Machine.Run, m: nat, s: Machine.Run, ctx: List<bool>, d: State, cont: nat,
          brk: nat, w: World, r: Res,
                 fuel: nat) returns (n: nat)
    requires Fits(ctx, d) && brk + 1 < |u.ops| && OpAt(u.ops, brk) == Loop(LoopExit)
        && OpAt(u.ops, brk + 1) == Push(Empty)
    requires Steps(h, u, start, m) == s && m > 0 && Directed(d, cont, brk, w, r, s) && Caught(h, r).Some?
    ensures Runs(h, u, start, ctx, d, brk + 2, true, Some((w, Caught(h, r).value)), fuel, n)
  {
    hide Steps, Fits;
    n := m;
    if r.Breaks? {
      n := LoopOver(h, u, start, m, ctx, d, cont, brk, w, fuel);
    } else {
      RunsDone(h, u, start, m, s, ctx, d, brk + 2, true, w, r, fuel);
    }
  }

  lemma LoopOver(h: Host, u: Code, start: Machine.Run, m: nat, ctx: List<bool>, d: State, cont: nat, brk: nat,
          w: World, fuel: nat) returns (n: nat)
    requires Fits(ctx, d) && brk + 1 < |u.ops| && OpAt(u.ops, brk) == Loop(LoopExit)
        && OpAt(u.ops, brk + 1) == Push(Empty)
    requires Steps(h, u, start, m) == Running(brk, Pass(d, cont, brk, w))
    ensures Runs(h, u, start, ctx, d, brk + 2, true, Some((w, Gives(Blank(h)))), fuel, n)
  {
    hide Steps, Fits;
    var t := Running(brk + 2, State(d.core.(w := w, stack := Cons(Blank(h), d.core.stack)), d.loops));
    LoopEnds(h, u, ctx, brk, d, cont, brk, w);
    Chain(h, u, start, m, Running(brk, Pass(d, cont, brk, w)), 2, t);
    n := m + 2;
    RunsDone(h, u, start, n, t, ctx, d, brk + 2, true, w, Gives(Blank(h)), fuel);
  }

  lemma NoFuel(h: Host, u: Code, pc: nat, d1: State, ctx: List<bool>, d: State, goal: nat, keep: bool)
    ensures Runs(h, u, Running(pc, d1), ctx, d, goal, keep, None, 0, 0)
  {
    hide Exec;
  }
}

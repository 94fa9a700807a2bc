/** Where a run of compiled code stands when the code it was started in is
    done, and how such runs chain together. */
module Arrivals {
  import opened Options
  import opened Opcodes
  import opened Machine
  import opened Evaluate

  // ── the loops around a piece of code ──

  /** The state fits its static context: one flag per open loop, saying whether
      control is in that loop's next script. */
  predicate CtxOk(ctx: List<bool>, bodies: List<Region>, stack: List<Val>, loops: List<LoopFrame>)
    decreases loops
  {
    match loops
    case Nil => ctx.Nil?
    case Cons(l, rest) =>
      && ctx.Cons?
      && l.at.bodiesLen <= Depth(bodies) && l.at.stackLen <= Depth(stack)
      && NextAbove(bodies, l.at.bodiesLen) == ctx.head
      && CtxOk(ctx.tail, Truncate(bodies, l.at.bodiesLen), Truncate(stack, l.at.stackLen), rest)
  }

  predicate Fits(ctx: List<bool>, d: State) { CtxOk(ctx, d.core.bodies, d.core.stack, d.loops) }

  function Cut(c: Core, at: Entry): Core {
    c.(bodies := Truncate(c.bodies, at.bodiesLen), stack := Truncate(c.stack, at.stackLen))
  }

  function BreakAt(f: Fault, c: Core, loops: List<LoopFrame>): Machine.Run {
    if loops.Nil? then Halted(Failed(f, c.w, None))
    else Running(loops.head.brk, State(Unwound(c, loops.head.at), loops))
  }

  /** A `continue` in a next script goes to the loop around that loop. */
  function ContinueAt(ctx: List<bool>, f: Fault, c: Core, loops: List<LoopFrame>): Machine.Run
    decreases loops
  {
    if loops.Nil? || ctx.Nil? then Halted(Failed(f, c.w, None))
    else if ctx.head then ContinueAt(ctx.tail, f, Cut(c, loops.head.at), loops.tail)
    else Running(loops.head.cont, State(Unwound(c, loops.head.at), loops))
  }

  ghost predicate FailedWith(s: Machine.Run, f: Fault, w: World) {
    s.Halted? && s.o.Failed? && s.o.f == f && s.o.w == w
  }

  /** Code started in `d` is done: `keep` says the current site is back too. */
  ghost predicate Arrives(ctx: List<bool>, d: State, goal: int, keep: bool, w: World, r: Res, s: Machine.Run) {
    match r
    case Gives(v) =>
      && s.Running? && s.pc == goal
      && s.d == State(d.core.(w := w, stack := Cons(v, d.core.stack), site := s.d.core.site), d.loops)
      && (keep ==> s.d.core.site == d.core.site)
    case Breaks(f) => s == BreakAt(f, d.core.(w := w), d.loops)
    case Continues(f) => s == ContinueAt(ctx, f, d.core.(w := w), d.loops)
    case Halts(f) => FailedWith(s, f, w)
  }

  // ── runs ──

  lemma NoStep(h: Host, u: Code, s: Machine.Run)
    ensures Steps(h, u, s, 0) == s
  {
    hide Exec;
  }

  lemma OneStep(h: Host, u: Code, pc: nat, d: State)
    requires pc < |u.ops|
    ensures Steps(h, u, Running(pc, d), 1) == After(pc, Exec(h, u.infos, u.ops[pc], d))
  {
    hide Exec;
    var s := Running(pc, d);
    assert Steps(h, u, s, 0) == s;
    assert Steps(h, u, s, 1) == Step(h, u, s);
  }

  lemma Chain(h: Host, u: Code, s: Machine.Run, m: nat, t: Machine.Run, n: nat, r: Machine.Run)
    requires Steps(h, u, s, m) == t && Steps(h, u, t, n) == r
    ensures Steps(h, u, s, m + n) == r
  {
    hide Step;
    StepsAdd(h, u, s, m, n);
  }

  /** From `start` things go as evaluated: within `fuel` to an arrival, or for
      at least `fuel` steps without one. */
  ghost predicate Runs(h: Host, u: Code, start: Machine.Run, ctx: List<bool>, d: State, goal: int, keep: bool,
                       got: Got, fuel: int, n: int)
  {
    var t := Steps(h, u, start, n);
    match got
    case None => t.Running? && n >= fuel
    case Some(r) => n > 0 && Arrives(ctx, d, goal, keep, r.0, r.1, t)
  }

  /** Steps in front of a run. */
  lemma RunsAfter(h: Host, u: Code, start: Machine.Run, m: nat, mid: Machine.Run, ctx: List<bool>, d: State,
                  goal: nat, keep: bool, got: Got, fuel1: nat, fuel: nat, n: nat)
    requires Steps(h, u, start, m) == mid && Runs(h, u, mid, ctx, d, goal, keep, got, fuel1, n) && fuel <= fuel1 + m
    ensures Runs(h, u, start, ctx, d, goal, keep, got, fuel, m + n)
  {
    hide Step, Arrives;
    Chain(h, u, start, m, mid, n, Steps(h, u, mid, n));
  }

  /** A run that has arrived after `n` steps. */
  lemma RunsDone(h: Host, u: Code, start: Machine.Run, n: nat, t: Machine.Run, ctx: List<bool>, d: State,
                 goal: nat, keep: bool, w: World, r: Res, fuel: nat)
    requires Steps(h, u, start, n) == t && n > 0 && Arrives(ctx, d, goal, keep, w, r, t)
    ensures Runs(h, u, start, ctx, d, goal, keep, Some((w, r)), fuel, n)
  {
    hide Exec;
  }

  /** A run without a value is the same run seen from further out. */
  lemma RunsOutward(h: Host, u: Code, start: Machine.Run, ctx: List<bool>, d1: State, goal1: nat, keep1: bool,
                    d: State, goal: nat, keep: bool, got: Got, fuel: nat, n: nat)
    requires Runs(h, u, start, ctx, d1, goal1, keep1, got, fuel, n)
    requires got.Some? ==> !got.value.1.Gives?
    requires d1.loops == d.loops && (got.Some? ==>
        Alike(d1.core.(w := got.value.0), d.core.(w := got.value.0), d.loops))
    ensures Runs(h, u, start, ctx, d, goal, keep, got, fuel, n)
  {
    hide Steps, Arrives, Alike;
    if got.Some? { Outward(ctx, d, d1, goal, goal1, keep, keep1, got.value.0, got.value.1, Steps(h, u, start, n)); }
  }

  // ── contexts under pushes and regions ──

  lemma CtxPush(ctx: List<bool>, bodies: List<Region>, stack: List<Val>, loops: List<LoopFrame>, v: Val)
    requires CtxOk(ctx, bodies, stack, loops)
    ensures CtxOk(ctx, bodies, Cons(v, stack), loops)
  {
  }

  lemma CtxOpen(ctx: List<bool>, bodies: List<Region>, stack: List<Val>, loops: List<LoopFrame>, r: Region)
    requires CtxOk(ctx, bodies, stack, loops) && !r.Next?
    ensures CtxOk(ctx, Cons(r, bodies), stack, loops)
  {
  }

  lemma CtxNext(ctx: List<bool>, bodies: List<Region>, stack: List<Val>, loops: List<LoopFrame>, r: Region)
    requires CtxOk(ctx, bodies, stack, loops) && loops.Cons?
    ensures CtxOk(Cons(r.Next? || ctx.head, ctx.tail), Cons(r, bodies), stack, loops)
  {
  }

  lemma CtxEnter(ctx: List<bool>, bodies: List<Region>, stack: List<Val>, loops: List<LoopFrame>, l: LoopFrame)
    requires CtxOk(ctx, bodies, stack, loops)
    requires l.at.bodiesLen == Depth(bodies) && l.at.stackLen == Depth(stack)
    ensures CtxOk(Cons(false, ctx), bodies, stack, Cons(l, loops))
  {
    TruncateSame(bodies);
    TruncateSame(stack);
    assert !NextAbove(bodies, Depth(bodies));
  }

  // ── signals do not see what lies above the loop's entry ──

  /** Alike down from the innermost loop's entry, but for the current site. */
  ghost predicate Alike(a: Core, b: Core, loops: List<LoopFrame>) {
    && a.w == b.w && a.foreaches == b.foreaches && a.expandBase == b.expandBase
    && (loops.Cons? ==> Cut(a, loops.head.at).bodies == Cut(b, loops.head.at).bodies
                        && Cut(a, loops.head.at).stack == Cut(b, loops.head.at).stack)
  }

  lemma SameBreak(f: Fault, a: Core, b: Core, loops: List<LoopFrame>)
    requires Alike(a, b, loops)
    ensures BreakAt(f, a, loops) == BreakAt(f, b, loops)
  {
  }

  lemma {:induction false} SameContinue(ctx: List<bool>, f: Fault, a: Core, b: Core, loops: List<LoopFrame>)
    requires Alike(a, b, loops)
    ensures ContinueAt(ctx, f, a, loops) == ContinueAt(ctx, f, b, loops)
    decreases loops
  {
    if loops.Cons? && ctx.Cons? && ctx.head {
      SameContinue(ctx.tail, f, Cut(a, loops.head.at), Cut(b, loops.head.at), loops.tail);
    }
  }

  /** A completion other than a value is the same one level further out. */
  lemma Outward(ctx: List<bool>, d: State, d1: State, goal: nat, goal1: nat, keep: bool, keep1: bool,
                w: World, r: Res, s: Machine.Run)
    requires Arrives(ctx, d1, goal1, keep1, w, r, s) && !r.Gives?
    requires d1.loops == d.loops && Alike(d1.core.(w := w), d.core.(w := w), d.loops)
    ensures Arrives(ctx, d, goal, keep, w, r, s)
  {
    match r
    case Breaks(f) => SameBreak(f, d1.core.(w := w), d.core.(w := w), d.loops);
    case Continues(f) => SameContinue(ctx, f, d1.core.(w := w), d.core.(w := w), d.loops);
    case Halts(_) =>
  }

  // ── faults ──

  lemma {:induction false} EscapeIsContinue(ctx: List<bool>, f: Fault, c: Core, loops: List<LoopFrame>)
    requires CtxOk(ctx, c.bodies, c.stack, loops)
    ensures Escape(f, State(c, loops)) == ContinueAt(ctx, f, c, loops)
    decreases loops
  {
    if loops.Cons? { EscapeIsContinue(ctx.tail, f, Cut(c, loops.head.at), loops.tail); }
  }

  lemma SettledFits(ctx: List<bool>, c: Core, loops: List<LoopFrame>)
    requires CtxOk(ctx, c.bodies, c.stack, loops)
    ensures CtxOk(ctx, c.bodies, Settle(c, Innermost(loops)).stack, loops)
    ensures Alike(Settle(c, Innermost(loops)), c, loops)
  {
    if loops.Cons? {
      TruncateTwice(c.stack, loops.head.at.stackLen, loops.head.at.stackLen);
      TruncateDepth(c.stack, loops.head.at.stackLen);
    }
  }

  lemma RouteSignals(ctx: List<bool>, f: Fault, c: Core, loops: List<LoopFrame>, goal: nat, keep: bool)
    requires CtxOk(ctx, c.bodies, c.stack, loops)
    ensures Arrives(ctx, State(c, loops), goal, keep, c.w, Signal(f), Route(f, State(c, loops)))
  {
    if f.Cnt? && f.level <= 1 && loops.Cons? && ctx.head {
      EscapeIsContinue(ctx.tail, f, Cut(c, loops.head.at), loops.tail);
    }
  }

  /** A raised fault arrives as the signal it is. */
  lemma RaiseArrives(ctx: List<bool>, f: Fault, c: Core, d: State, goal: nat, keep: bool)
    requires CtxOk(ctx, c.bodies, c.stack, d.loops)
    requires Alike(c, d.core.(w := c.w), d.loops)
    ensures Arrives(ctx, d, goal, keep, c.w, Signal(f), Route(f, State(Settle(c, Innermost(d.loops)), d.loops)))
  {
    var c1 := Settle(c, Innermost(d.loops));
    SettledFits(ctx, c, d.loops);
    RouteSignals(ctx, f, c1, d.loops, goal, keep);
    Outward(ctx, d, State(c1, d.loops), goal, goal, keep, keep, c.w, Signal(f), Route(f, State(c1, d.loops)));
  }
}

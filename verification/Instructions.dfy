/** What single instructions do, one equation each. */
module Instructions {
  import opened Opcodes
  import opened Machine
  import opened Evaluate
  import opened Arrivals

  /** Ask, then push the reply over `base` or raise the fault. */
  function Answer(base: Core, r: (World, Reply), loops: List<LoopFrame>): Ctl {
    match r.1
    case Ok(v) => Fall(State(Pushed(base.(w := r.0), v), loops))
    case Fault(f) => Raise(f, State(Settle(base.(w := r.0), Innermost(loops)), loops))
  }

  lemma PushRuns(h: Host, infos: seq<ForeachInfo>, lit: Lit, d: State)
    ensures Exec(h, infos, Push(lit), d) == Fall(State(Pushed(d.core, LitVal(h, lit)), d.loops))
  {
    hide ExecFused;
  }

  lemma PopRuns(h: Host, infos: seq<ForeachInfo>, d: State)
    ensures Exec(h, infos, Pop, d) == Fall(State(Popped(d.core), d.loops))
  {
    hide ExecFused;
  }

  lemma LoadRuns(h: Host, infos: seq<ForeachInfo>, x: Loc, d: State)
    ensures Exec(h, infos, Load(x), d) == Answer(d.core, h.ask(d.core.w, Request.Read(x)), d.loops)
  {
    hide ExecFused;
  }

  lemma IncrRuns(h: Host, infos: seq<ForeachInfo>, x: Loc, k: int, d: State)
    ensures Exec(h, infos, Incr(x, k), d) == Answer(d.core, h.ask(d.core.w, Request.Bump(x, k)), d.loops)
  {
    hide ExecFused;
  }

  lemma LappendRuns(h: Host, infos: seq<ForeachInfo>, x: Loc, d: State)
    requires d.core.stack.Cons?
    ensures Exec(h, infos, Lappend(x), d)
         == Answer(Popped(d.core), h.ask(d.core.w, Request.Extend(x, d.core.stack.head)), d.loops)
  {
    hide ExecFused;
  }

  lemma EvalScriptRuns(h: Host, infos: seq<ForeachInfo>, d: State)
    requires d.core.stack.Cons?
    ensures Exec(h, infos, EvalScript, d)
         == Answer(Popped(d.core), h.ask(d.core.w, RunScript(d.core.stack.head)), d.loops)
  {
    hide ExecFused;
  }

  lemma EvalExprRuns(h: Host, infos: seq<ForeachInfo>, d: State)
    requires d.core.stack.Cons?
    ensures Exec(h, infos, EvalExpr, d)
         == Answer(Popped(d.core), h.ask(d.core.w, RunExpr(d.core.stack.head)), d.loops)
  {
    hide ExecFused;
  }

  lemma BinRuns(h: Host, infos: seq<ForeachInfo>, op: BinOp, d: State)
    requires d.core.stack.Cons? && d.core.stack.tail.Cons?
    ensures Exec(h, infos, Bin(op), d)
         == Answer(Popped(Popped(d.core)), (d.core.w, BinVal(h, op, d.core.stack.tail.head, d.core.stack.head)),
             d.loops)
  {
    hide ExecFused, BinVal;
  }

  lemma UnRuns(h: Host, infos: seq<ForeachInfo>, op: UnOp, d: State)
    requires d.core.stack.Cons?
    ensures Exec(h, infos, Un(op), d)
         == Answer(Popped(d.core), (d.core.w, UnVal(h, op, d.core.stack.head)), d.loops)
  {
    hide ExecFused, UnVal;
  }

  lemma ConcatRuns(h: Host, infos: seq<ForeachInfo>, n: nat, d: State)
    ensures var a := TakeArgs(d.core.stack, n);
      Exec(h, infos, Concat(n), d) == Fall(State(Pushed(d.core.(stack := a.1), h.concat(a.0)), d.loops))
  {
    hide ExecFused, TakeArgs;
  }

  lemma CallRuns(h: Host, infos: seq<ForeachInfo>, dyn: bool, id: nat, n: nat, d: State)
    ensures var a := TakeArgs(d.core.stack, n);
      Exec(h, infos, Call(dyn, id, n), d) == Answer(d.core.(stack := a.1), h.ask(d.core.w, Invoke(dyn, a.0)), d.loops)
  {
    hide ExecFused, TakeArgs;
  }

  /** Storing keeps the value; only a fault says otherwise. */
  lemma StoreRuns(h: Host, infos: seq<ForeachInfo>, x: Loc, d: State)
    requires d.core.stack.Cons?
    ensures var r := h.ask(d.core.w, Write(x, d.core.stack.head));
      Exec(h, infos, Store(x), d)
      == if r.1.Ok? then Fall(State(d.core.(w := r.0), d.loops))
         else Raise(r.1.f, State(Settle(d.core.(w := r.0), Innermost(d.loops)), d.loops))
  {
    hide ExecFused;
  }

  lemma BeginRuns(h: Host, infos: seq<ForeachInfo>, site: nat, d: State)
    ensures var r := h.ask(d.core.w, Begin(site));
      Exec(h, infos, BeginCmd(site), d)
      == if r.1.Ok? then Fall(State(d.core.(w := r.0, site := site), d.loops))
         else Raise(r.1.f, State(Settle(d.core.(w := r.0), Innermost(d.loops)), d.loops))
  {
    hide ExecFused;
  }

  lemma MarkRuns(h: Host, infos: seq<ForeachInfo>, m: MarkOp, d: State)
    ensures Exec(h, infos, Mark(m), d) == Fall(State(Marked(d.core, m), d.loops))
  {
    hide ExecFused, Marked;
  }

  lemma SubEndRuns(h: Host, infos: seq<ForeachInfo>, d: State)
    ensures Exec(h, infos, SubEnd, d) == Fall(State(Closed(d.core), d.loops))
  {
    hide ExecFused;
  }

  lemma JumpRuns(h: Host, infos: seq<ForeachInfo>, t: nat, d: State)
    ensures Exec(h, infos, Jump(t), d) == Goto(t, State(Closed(d.core), d.loops))
  {
    hide ExecFused;
  }

  lemma JumpIfRuns(h: Host, infos: seq<ForeachInfo>, want: bool, t: nat, d: State)
    requires d.core.stack.Cons?
    ensures Exec(h, infos, JumpIf(want, t), d)
         == match Truth(h, d.core.stack.head)
            case Objects(f) => Raise(f, State(Settle(Popped(d.core), Innermost(d.loops)), d.loops))
            case Says(b) =>
              if b == want then Goto(t, State(Popped(d.core), d.loops))
              else Fall(State(Opened(Popped(d.core), Body(d.core.site)), d.loops))
  {
    hide ExecFused, Truth;
  }

  lemma ReturnRuns(h: Host, infos: seq<ForeachInfo>, d: State)
    requires d.core.stack.Cons?
    ensures Exec(h, infos, Return, d)
         == Raise(Ret(d.core.stack.head), State(Settle(Popped(d.core), Innermost(d.loops)), d.loops))
  {
    hide ExecFused;
  }

  lemma ExitRuns(h: Host, infos: seq<ForeachInfo>, code: int, d: State)
    ensures Exec(h, infos, Exit(code), d) == Raise(Quit(code), State(Settle(d.core, Innermost(d.loops)), d.loops))
  {
    hide ExecFused;
  }

  lemma CollectRuns(h: Host, infos: seq<ForeachInfo>, d: State)
    ensures Exec(h, infos, Loop(ForeachCollect), d) == Fall(State(Collect(h, d.core), d.loops))
  {
    hide ExecFused, Collect;
  }

  lemma AdvanceRuns(h: Host, infos: seq<ForeachInfo>, info: nat, body: nat, d: State)
    ensures Exec(h, infos, Loop(ForeachNext(info, body)), d)
         == Lift(Advance(h, d.core, info, body, false, Innermost(d.loops)), d.loops)
  {
    hide ExecFused, Advance;
  }

  // ── steps that end a word ──

  /** An instruction that answers over the state its code was started in. */
  lemma AnswerArrives(h: Host, u: Code, ctx: List<bool>, pc: nat, d: State, d0: State, base: Core, r: (World, Reply),
          keep: bool)
    requires pc < |u.ops| && Fits(ctx, d0) && d.loops == d0.loops
    requires Exec(h, u.infos, u.ops[pc], d) == Answer(base, r, d.loops)
    requires base == d0.core.(w := base.w, site := base.site) && (keep ==> base.site == d0.core.site)
    ensures var t := After(pc, Answer(base, r, d.loops));
      Steps(h, u, Running(pc, d), 1) == t && Arrives(ctx, d0, pc + 1, keep, r.0, OfReply(r.1), t)
  {
    hide Exec, Route, Steps;
    OneStep(h, u, pc, d);
    if r.1.Fault? { RaiseArrives(ctx, r.1.f, base.(w := r.0), d0, pc + 1, keep); }
  }

  // ── arguments ──

  lemma {:induction false} TakePushed(st: List<Val>, vs: seq<Val>)
    ensures TakeArgs(PushAll(st, vs), |vs|) == (vs, st)
    decreases |vs|
  {
    if vs != [] {
      TakePushed(st, vs[..|vs| - 1]);
      assert vs[..|vs| - 1] + [vs[|vs| - 1]] == vs;
    }
  }

  lemma {:induction false} PushAllFront(st: List<Val>, v: Val, vs: seq<Val>)
    ensures PushAll(Cons(v, st), vs) == PushAll(st, [v] + vs)
    decreases |vs|
  {
    if vs == [] {
      assert [v] + vs == [v] && [v][..0] == [];
      assert PushAll(st, []) == st;
    } else {
      PushAllFront(st, v, vs[..|vs| - 1]);
      assert ([v] + vs)[..|vs|] == [v] + vs[..|vs| - 1];
    }
  }

  lemma {:induction false} CtxPushAll(ctx: List<bool>, bodies: List<Region>, st: List<Val>, loops: List<LoopFrame>,
          vs: seq<Val>)
    requires CtxOk(ctx, bodies, st, loops)
    ensures CtxOk(ctx, bodies, PushAll(st, vs), loops)
    decreases |vs|
  {
    if vs != [] {
      CtxPushAll(ctx, bodies, st, loops, vs[..|vs| - 1]);
      CtxPush(ctx, bodies, PushAll(st, vs[..|vs| - 1]), loops, vs[|vs| - 1]);
    }
  }

  lemma EnterRuns(h: Host, infos: seq<ForeachInfo>, cont: nat, brk: nat, d: State)
    ensures Exec(h, infos, Loop(LoopEnter(cont, brk)), d)
        == Fall(d.(loops := Cons(LoopFrame(cont, brk, EntryNow(d.core)), d.loops)))
  {
    hide ExecCore;
  }
}

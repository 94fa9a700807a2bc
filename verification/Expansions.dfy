/** Argument expansion: a call with `{*}` takes what was pushed since the mark.
    There is one mark at a time, so a bracketed call with `{*}` of its own
    inside the arguments of another takes the outer one's mark away. */
module Expansions {
  import opened Opcodes
  import opened Machine
  import opened Rewriting
  import opened Instructions

  lemma {:induction false} DepthPushed(st: List<Val>, vs: seq<Val>)
    ensures Depth(PushAll(st, vs)) == Depth(st) + |vs|
    decreases |vs|
  {
    if vs != [] { DepthPushed(st, vs[..|vs| - 1]); }
  }

  lemma {:induction false} TakeSize(st: List<Val>, n: nat)
    requires n <= Depth(st)
    ensures |TakeArgs(st, n).0| == n
  {
    if n > 0 { TakeSize(st.tail, n - 1); }
  }

  /** What a call takes of the operands. */
  function Taken(c: Core): seq<Val> {
    var n := Depth(c.stack);
    TakeArgs(c.stack, if n < c.expandBase then 0 else n - c.expandBase).0
  }

  /** The call takes the arguments pushed over `st` exactly when the mark stands
      where they begin. */
  lemma MarkDecides(c: Core, st: List<Val>, vs: seq<Val>)
    requires c.stack == PushAll(st, vs) && vs != []
    ensures Taken(c) == vs <==> c.expandBase == Depth(st)
  {
    hide PushAll, TakeArgs, Depth;
    DepthPushed(st, vs);
    TakePushed(st, vs);
    var n := Depth(c.stack);
    TakeSize(c.stack, if n < c.expandBase then 0 else n - c.expandBase);
  }

  /** `f {*}.. x [g {*}.. y]`: `g` is given `y`, but `f` is given only what `g`
      answered; `x` stays behind on the stack. */
  lemma OuterMarkLost(h: Host, infos: seq<ForeachInfo>, x: Lit, y: Lit, f: nat, g: nat, d: State, w: World, r: Val)
    requires h.ask(d.core.w, Invoke(false, [LitVal(h, y)])) == (w, Ok(r))
    ensures var c := d.core.(w := w, stack := Cons(LitVal(h, x), d.core.stack), expandBase := Depth(d.core.stack) + 1);
      ExecSeq(h, infos, [ExpandMark, Push(x), ExpandMark, Push(y), CallExpand(false, g, 1), CallExpand(false, f, 2)], d)
      == Answer(c, h.ask(w, Invoke(false, [r])), d.loops)
  {
    hide Exec, Settle;
    var st, loops := d.core.stack, d.loops;
    var vx, vy := LitVal(h, x), LitVal(h, y);
    var c1 := d.core.(expandBase := Depth(st));
    var c2 := c1.(stack := Cons(vx, st));
    var c3 := c2.(expandBase := Depth(st) + 1);
    var c4 := c3.(stack := Cons(vy, c3.stack));
    var c5 := c3.(w := w, stack := Cons(r, c3.stack));
    MarkRunsAt(h, infos, d);
    PushRuns(h, infos, x, State(c1, loops));
    MarkRunsAt(h, infos, State(c2, loops));
    PushRuns(h, infos, y, State(c3, loops));
    CallRunsOn(h, infos, g, 1, State(c4, loops), vy, c3.stack);
    CallRunsOn(h, infos, f, 2, State(c5, loops), r, c3.stack);
    var last := [CallExpand(false, f, 2)];
    ExecOne(h, infos, last, State(c5, loops));
    SeqFalls(h, infos, CallExpand(false, g, 1), last, State(c4, loops), State(c5, loops));
    SeqFalls(h, infos, Push(y), [CallExpand(false, g, 1)] + last, State(c3, loops), State(c4, loops));
    SeqFalls(h, infos, ExpandMark, [Push(y)] + ([CallExpand(false, g, 1)] + last), State(c2, loops), State(c3, loops));
    SeqFalls(h, infos, Push(x), [ExpandMark] + ([Push(y)] + ([CallExpand(false, g, 1)] + last)), State(c1, loops),
        State(c2, loops));
    SeqFalls(h, infos, ExpandMark, [Push(x)] + ([ExpandMark] + ([Push(y)] + ([CallExpand(false, g, 1)] + last))), d,
        State(c1, loops));
    assert [ExpandMark] + ([Push(x)] + ([ExpandMark] + ([Push(y)] + ([CallExpand(false, g, 1)] + last))))
        == [ExpandMark, Push(x), ExpandMark, Push(y), CallExpand(false, g, 1), CallExpand(false, f, 2)];
  }

  lemma SeqFalls(h: Host, infos: seq<ForeachInfo>, op: OpCode, rest: seq<OpCode>, d: State, e: State)
    requires Exec(h, infos, op, d) == Fall(e)
    ensures ExecSeq(h, infos, [op] + rest, d) == ExecSeq(h, infos, rest, e)
  {
    hide Exec;
    assert ([op] + rest)[1..] == rest;
  }

  lemma MarkRunsAt(h: Host, infos: seq<ForeachInfo>, d: State)
    ensures Exec(h, infos, ExpandMark, d) == Fall(State(d.core.(expandBase := Depth(d.core.stack)), d.loops))
  {
    hide ExecFused;
  }

  /** A call right above the mark. */
  lemma CallRunsOn(h: Host, infos: seq<ForeachInfo>, id: nat, n: nat, d: State, v: Val, st: List<Val>)
    requires d.core.stack == Cons(v, st) && d.core.expandBase == Depth(st)
    ensures Exec(h, infos, CallExpand(false, id, n), d)
        == Answer(d.core.(stack := st), h.ask(d.core.w, Invoke(false, [v])), d.loops)
  {
    hide ExecFused, Settle;
    assert TakeArgs(st, 0) == ([], st);
    assert TakeArgs(d.core.stack, 1) == ([v], st) by { assert [] + [v] == [v]; }
  }
}

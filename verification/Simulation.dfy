/** Two units that advance together: a general argument from one block of
    steps at a time to equal outcomes of whole, possibly endless, runs. */
module Simulation {
  import opened Options
  import opened Opcodes
  import opened Machine

  /** From related runs, `k` steps of `u` and `j` of `v` restore the relation;
      if one side stands still the rank drops. */
  ghost predicate Block(h: Host, u: Code, v: Code, rel: (Run, Run) -> bool, rank: (Run, Run) -> nat,
                        s: Run, t: Run, k: nat, j: nat)
  {
    var s' := Steps(h, u, s, k);
    var t' := Steps(h, v, t, j);
    && j <= 1
    && rel(s', t')
    && (k == 0 || j == 0 ==> k + j > 0 && rank(s', t') < rank(s, t))
  }

  ghost predicate Simulates(h: Host, u: Code, v: Code, rel: (Run, Run) -> bool, rank: (Run, Run) -> nat) {
    forall s, t | rel(s, t) ::
      && (s.Halted? || t.Halted? ==> s == t)
      && (s.Running? ==> exists k: nat, j: nat :: Block(h, u, v, rel, rank, s, t, k, j))
  }

  lemma {:induction false} EndsThere(h: Host, u: Code, v: Code, rel: (Run, Run) -> bool,
                                     rank: (Run, Run) -> nat, s: Run, t: Run, n: nat, o: Outcome)
    requires Simulates(h, u, v, rel, rank) && rel(s, t) && Steps(h, u, s, n) == Halted(o)
    ensures Ends(h, v, t, o)
    decreases n, rank(s, t)
  {
    hide Step;
    if s.Halted? {
      HaltedStays(h, u, s, n);
      assert Steps(h, v, t, 0) == Halted(o);
    } else {
      var k: nat, j: nat :| Block(h, u, v, rel, rank, s, t, k, j);
      var s', t' := Steps(h, u, s, k), Steps(h, v, t, j);
      var m := if k <= n then n - k else 0;
      assert Steps(h, u, s', m) == Halted(o) by {
        if k <= n { StepsAdd(h, u, s, k, m); }
        else { StepsAdd(h, u, s, n, k - n); HaltedStays(h, u, Halted(o), k - n); }
      }
      assert n > 0;
      EndsThere(h, u, v, rel, rank, s', t', m, o);
      var i: nat :| Steps(h, v, t', i) == Halted(o);
      StepsAdd(h, v, t, j, i);
    }
  }

  lemma {:induction false} CameFrom(h: Host, u: Code, v: Code, rel: (Run, Run) -> bool,
                                    rank: (Run, Run) -> nat, s: Run, t: Run, n: nat)
    requires Simulates(h, u, v, rel, rank) && rel(s, t)
    ensures exists s' :: Reaches(h, u, s, s') && rel(s', Steps(h, v, t, n))
    decreases n, rank(s, t)
  {
    hide Step;
    if n == 0 || s.Halted? {
      if n > 0 { HaltedStays(h, v, t, n); }
      assert Steps(h, u, s, 0) == s;
      assert Reaches(h, u, s, s);
    } else {
      var k: nat, j: nat :| Block(h, u, v, rel, rank, s, t, k, j);
      var s1, t1 := Steps(h, u, s, k), Steps(h, v, t, j);
      StepsAdd(h, v, t, j, n - j);
      CameFrom(h, u, v, rel, rank, s1, t1, n - j);
      var s' :| Reaches(h, u, s1, s') && rel(s', Steps(h, v, t1, n - j));
      var i: nat :| Steps(h, u, s1, i) == s';
      StepsAdd(h, u, s, k, i);
      assert Reaches(h, u, s, s');
    }
  }

  /** Same outcomes, whichever side is run. */
  lemma SameEnds(h: Host, u: Code, v: Code, rel: (Run, Run) -> bool, rank: (Run, Run) -> nat,
                 s: Run, t: Run, o: Outcome)
    requires Simulates(h, u, v, rel, rank) && rel(s, t)
    ensures Ends(h, u, s, o) <==> Ends(h, v, t, o)
  {
    hide Step;
    if Ends(h, u, s, o) {
      var n: nat :| Steps(h, u, s, n) == Halted(o);
      EndsThere(h, u, v, rel, rank, s, t, n, o);
    }
    if Ends(h, v, t, o) {
      var n: nat :| Steps(h, v, t, n) == Halted(o);
      CameFrom(h, u, v, rel, rank, s, t, n);
      var s' :| Reaches(h, u, s, s') && rel(s', Halted(o));
      assert s' == Halted(o);
    }
  }

  // ── renaming pcs ──

  function MapLoops(loops: List<LoopFrame>, f: seq<nat>): List<LoopFrame> {
    match loops
    case Nil => Nil
    case Cons(l, rest) => Cons(LoopFrame(At(f, l.cont), At(f, l.brk), l.at), MapLoops(rest, f))
  }

  function MapState(d: State, f: seq<nat>): State { State(d.core, MapLoops(d.loops, f)) }

  function MapCoreCtl(r: CoreCtl, f: seq<nat>): CoreCtl {
    if r.CGoto? then CGoto(At(f, r.t), r.c) else r
  }

  function MapCtl(r: Ctl, f: seq<nat>): Ctl {
    match r
    case Fall(d) => Fall(MapState(d, f))
    case Goto(t, d) => Goto(At(f, t), MapState(d, f))
    case Raise(e, d) => Raise(e, MapState(d, f))
  }

  function MapRun(r: Run, f: seq<nat>): Run {
    match r case Running(pc, d) => Running(At(f, pc), MapState(d, f)) case Halted(_) => r
  }

  lemma FusedMapped(h: Host, g: FusedOp, c: Core, top: Option<Entry>, f: seq<nat>)
    ensures ExecFused(h, MapFused(g, f), c, top) == MapCoreCtl(ExecFused(h, g, c, top), f)
  {
  }

  lemma ExecCoreMapped(h: Host, op: OpCode, c: Core, top: Option<Entry>, f: seq<nat>)
    requires !IsLoopOp(op)
    ensures ExecCore(h, MapOp(op, f), c, top) == MapCoreCtl(ExecCore(h, op, c, top), f)
  {
    hide ExecFused, MapFused;
    if op.Super? { FusedMapped(h, op.f, c, top, f); }
  }

  lemma LoopOpMapped(h: Host, infos: seq<ForeachInfo>, op: OpCode, d: State, f: seq<nat>)
    requires IsLoopOp(op)
    ensures Exec(h, infos, MapOp(op, f), MapState(d, f)) == MapCtl(Exec(h, infos, op, d), f)
  {
    hide ExecCore;
  }

  /** Instructions commute with renaming every pc they mention. */
  lemma ExecMapped(h: Host, infos: seq<ForeachInfo>, op: OpCode, d: State, f: seq<nat>)
    ensures Exec(h, infos, MapOp(op, f), MapState(d, f)) == MapCtl(Exec(h, infos, op, d), f)
  {
    if IsLoopOp(op) {
      hide Exec;
      LoopOpMapped(h, infos, op, d, f);
    } else {
      hide ExecCore, ExecLoop;
      ExecCoreMapped(h, op, d.core, Innermost(d.loops), f);
    }
  }

  lemma {:induction false} EscapeMapped(e: Fault, d: State, f: seq<nat>)
    ensures Escape(e, MapState(d, f)) == MapRun(Escape(e, d), f)
    decreases d.loops
  {
    if d.loops.Cons? {
      var l := d.loops.head;
      var c := d.core.(bodies := Truncate(d.core.bodies, l.at.bodiesLen),
                       stack := Truncate(d.core.stack, l.at.stackLen));
      EscapeMapped(e, State(c, d.loops.tail), f);
    }
  }

  lemma RouteMapped(e: Fault, d: State, f: seq<nat>)
    ensures Route(e, MapState(d, f)) == MapRun(Route(e, d), f)
  {
    if e.Cnt? && d.loops.Cons? {
      var c := d.core.(bodies := Truncate(d.core.bodies, d.loops.head.at.bodiesLen),
                       stack := Truncate(d.core.stack, d.loops.head.at.stackLen));
      EscapeMapped(e, State(c, d.loops.tail), f);
    }
  }
}

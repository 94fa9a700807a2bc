/** Dropping a double negation whose value goes to a branch or to another
    negation: the unit without it waits at its place until that instruction
    comes, and then both do the same. */
module Doubled {
  import opened Opcodes
  import opened Machine
  import opened Simulation
  import opened Discipline
  import opened Rewriting
  import opened Laws
  import opened Windows
  import opened Negations
  import opened Fates
  import opened Levels
  import opened Taming
  import opened Effects

  predicate Twice(ops: seq<OpCode>, i: nat) { i + 1 < |ops| && ops[i] == Un(Not) && ops[i + 1] == Un(Not) }

  /** The first instruction at or after `q` that is not a no-op. */
  function Taker(ops: seq<OpCode>, q: nat): (r: nat)
    ensures q <= r && (r <= |ops| || r == q) && (r < |ops| ==> !ops[r].Nop?)
    decreases |ops| - q
  {
    if q < |ops| && ops[q].Nop? then Taker(ops, q + 1) else q
  }

  lemma {:induction false} NopsBefore(ops: seq<OpCode>, q: nat)
    requires q <= |ops|
    ensures forall k | q <= k < Taker(ops, q) :: ops[k].Nop?
    decreases |ops| - q
  {
    if q < |ops| && ops[q].Nop? { NopsBefore(ops, q + 1); }
  }

  predicate Takes(op: OpCode) { op == Un(Not) || op.JumpIf? }

  /** The double negation at `i` goes to the instruction at `e`. */
  predicate Goes(ops: seq<OpCode>, i: nat, e: nat) {
    Twice(ops, i) && i + 2 <= e < |ops| && Takes(ops[e]) && forall k | i + 2 <= k < e :: ops[k].Nop?
  }

  lemma TakerFate(ops: seq<OpCode>, i: nat)
    requires Twice(ops, i) && !FateAt(ops, i + 1, true).Never?
    ensures var e := Taker(ops, i + 2);
      Goes(ops, i, e) && FateAt(ops, i + 1, true) == if OpAt(ops, e).JumpIf? then IfBoolean
          else FateAt(ops, e + 1, true)
  {
    var e := Taker(ops, i + 2);
    assert FateAt(ops, i + 1, true) == FateAt(ops, i + 2, false);
    NopsBefore(ops, i + 2);
    FateSkips(ops, i + 2, e - (i + 2), false);
  }

  lemma {:induction false} NopsSeq(h: Host, infos: seq<ForeachInfo>, ops: seq<OpCode>, j: nat, e: nat, d: State)
    requires j <= e < |ops| && forall k | j <= k < e :: ops[k].Nop?
    ensures ExecSeq(h, infos, ops[j..e + 1], d) == Exec(h, infos, OpAt(ops, e), d)
    decreases e - j
  {
    hide Exec;
    if j == e {
      ExecOne(h, infos, ops[j..e + 1], d);
    } else {
      NopFalls(h, infos, d);
      assert ops[j..e + 1][0] == Nop && ops[j..e + 1][1..] == ops[j + 1..e + 1];
      NopsSeq(h, infos, ops, j + 1, e, d);
    }
  }

  /** Up to there, the window does what its last instruction does alone. */
  lemma WindowIsTaker(h: Host, infos: seq<ForeachInfo>, ops: seq<OpCode>, i: nat, e: nat, d: State)
    requires Goes(ops, i, e) && NotsAgree(h) && d.core.stack.Cons?
        && (OpAt(ops, e).JumpIf? ==> Boolish(h, d.core.stack.head))
    ensures ExecSeq(h, infos, ops[i..e + 1], d) == Exec(h, infos, OpAt(ops, e), d)
  {
    hide ExecCore, Boolish;
    var c, top := d.core, Innermost(d.loops);
    assert Three(h, Un(Not), Un(Not), ops[e], c, top) == ExecCore(h, ops[e], c, top) by {
      if ops[e].JumpIf? { DoubleNotTested(h, ops[e].want, ops[e].t, c, top); } else { TripleNot(h, c, top); }
    }
    var win := ops[i..e + 1];
    assert win == [Un(Not)] + ([Un(Not)] + ops[i + 2..e + 1]);
    ExecCons(h, infos, Un(Not), [Un(Not)] + ops[i + 2..e + 1], d);
    var r := ExecCore(h, Un(Not), c, top);
    if r.CFall? {
      ExecCons(h, infos, Un(Not), ops[i + 2..e + 1], State(r.c, d.loops));
      var q := ExecCore(h, Un(Not), r.c, top);
      if q.CFall? { NopsSeq(h, infos, ops, i + 2, e, State(q.c, d.loops)); }
    }
  }

  // ── no target in between ──

  lemma {:induction false} LandsAtTaker(ops: seq<OpCode>, i: nat, e: nat, t: nat)
    requires Goes(ops, i, e) && i + 2 <= t <= e
    ensures Lands(ops, t) == OpAt(ops, e) && Before(ops, t) == Un(Not)
    decreases e - t
  {
    BeforeTaker(ops, i, e, t);
    if t < e { LandsAtTaker(ops, i, e, t + 1); }
  }

  lemma {:induction false} BeforeTaker(ops: seq<OpCode>, i: nat, e: nat, t: nat)
    requires Goes(ops, i, e) && i + 2 <= t <= e
    ensures Before(ops, t) == Un(Not)
    decreases t
  {
    if t > i + 2 { BeforeTaker(ops, i, e, t - 1); }
  }

  lemma GoesIsWindow(u: Code, i: nat, e: nat)
    requires Guarded(u.ops) && Goes(u.ops, i, e)
    ensures Window(u, i, e - i + 1)
  {
    hide Landing, Barrier;
    forall j, t: nat | 0 <= j < |u.ops| && Targets(u.ops[j], t) ensures Free(t, i, e - i + 1) {
      assert GuardedAt(u.ops, t);
      if i < t <= e {
        if t == i + 1 { assert Lands(u.ops, t) == Un(Not) && Before(u.ops, t) == Un(Not); }
        else { LandsAtTaker(u.ops, i, e, t); }
        NeitherRole(u.ops[e]);
      }
    }
  }

  lemma NeitherRole(op: OpCode)
    requires Takes(op)
    ensures !Landing(op) && !Landing(Un(Not)) && !Barrier(Un(Not))
  {
  }

  // ── the two runs ──

  /** Equal states; on its way to `e` the right one is ahead. */
  predicate Ahead(i: nat, e: nat, s: Run, t: Run) {
    && i <= e
    && (s.Halted? ==> t == s)
    && (s.Running? ==>
          && t.Running? && t.d == s.d && LoopsFree(s.d.loops, i, e - i + 1) && Free(s.pc, i, e - i + 1)
          && (t.pc == s.pc || (s.pc == i && i < t.pc <= e)))
  }

  ghost predicate AheadRel(h: Host, u: Code, s0: Run, i: nat, e: nat, s: Run, t: Run) {
    i <= e && Reaches(h, u, s0, s) && Ahead(i, e, s, t)
  }

  function AheadRank(i: nat, e: nat, t: Run): nat { if t.Running? && i <= t.pc <= e then e + 1 - t.pc else 0 }

  function Dropped(u: Code, i: nat): Code { Replace(u, i, 2, Nop) }

  lemma DroppedAt(u: Code, i: nat, e: nat, pc: nat)
    requires Goes(u.ops, i, e)
    ensures |Dropped(u, i).ops| == |u.ops|
    ensures i <= pc < e ==> Dropped(u, i).ops[pc] == Nop
    ensures pc < |u.ops| && !(i <= pc < e) ==> Dropped(u, i).ops[pc] == OpAt(u.ops, pc)
  {
  }

  /** Both take the instruction at hand. */
  lemma SameStep(h: Host, u: Code, i: nat, e: nat, pc: nat, d: State)
    requires Goes(u.ops, i, e) && Window(u, i, e - i + 1) && Free(pc, i, e - i + 1) && pc != i
        && LoopsFree(d.loops, i, e - i + 1)
    ensures Ahead(i, e, Step(h, u, Running(pc, d)), Step(h, Dropped(u, i), Running(pc, d)))
  {
    hide Exec;
    DroppedAt(u, i, e, pc);
    if pc < |u.ops| {
      var r := Exec(h, u.infos, u.ops[pc], d);
      ExecFree(h, u.infos, u.ops[pc], d, i, e - i + 1);
      AfterFree(pc, r, i, e - i + 1);
    }
  }

  /** The whole window on the left, its last instruction on the right. */
  lemma TakerStep(h: Host, u: Code, i: nat, e: nat, d: State) returns (k: nat)
    requires Goes(u.ops, i, e) && Window(u, i, e - i + 1) && LoopsFree(d.loops, i, e - i + 1)
    requires NotsAgree(h) && d.core.stack.Cons? && (OpAt(u.ops, e).JumpIf? ==> Boolish(h, d.core.stack.head))
    ensures k >= 1 && Ahead(i, e, Steps(h, u, Running(i, d), k), Step(h, Dropped(u, i), Running(e, d)))
  {
    hide Exec, ExecSeq, NotsAgree, Boolish;
    var n := e - i + 1;
    k := WindowRun(h, u, i, n, d);
    WindowIsTaker(h, u.infos, u.ops, i, e, d);
    DroppedAt(u, i, e, e);
    ExecSeqFree(h, u, i, n, d, i, n);
    AfterFree(e, ExecSeq(h, u.infos, u.ops[i..i + n], d), i, n);
  }

  /** What the simulation rests on. */
  ghost predicate Droppable(h: Host, u: Code, s0: Run, i: nat, e: nat) {
    && Goes(u.ops, i, e) && Window(u, i, e - i + 1) && NotsAgree(h)
    && forall d | Reaches(h, u, s0, Running(i, d)) ::
        d.core.stack.Cons? && (u.ops[e].JumpIf? ==> Boolish(h, d.core.stack.head))
  }

  lemma AheadBlock(h: Host, u: Code, s0: Run, i: nat, e: nat, s: Run, t: Run) returns (k: nat)
    requires Droppable(h, u, s0, i, e) && AheadRel(h, u, s0, i, e, s, t) && s.Running?
    ensures AheadRel(h, u, s0, i, e, Steps(h, u, s, k), Step(h, Dropped(u, i), t))
    ensures k == 0 ==> AheadRank(i, e, Step(h, Dropped(u, i), t)) < AheadRank(i, e, t)
  {
    hide Exec, NotsAgree, Boolish, Reaches;
    if s.pc == i && t.pc < e {
      k := 0;
      DroppedAt(u, i, e, t.pc);
      NopFalls(h, u.infos, t.d);
      assert Step(h, Dropped(u, i), t) == Running(t.pc + 1, t.d);
    } else {
      if s.pc == i {
        k := TakerStep(h, u, i, e, s.d);
      } else {
        k := 1;
        SameStep(h, u, i, e, s.pc, s.d);
        assert Steps(h, u, s, 1) == Step(h, u, s);
      }
      ReachesStep(h, u, s0, s, k);
    }
  }

  lemma AheadSimulates(h: Host, u: Code, s0: Run, i: nat, e: nat)
    requires i <= e && Droppable(h, u, s0, i, e)
    ensures Simulates(h, u, Dropped(u, i), (s, t) => AheadRel(h, u, s0, i, e, s, t), (s, t) => AheadRank(i, e, t))
  {
    hide Exec, Droppable;
    DroppableGoes(h, u, s0, i, e);
    var rel, rank := (s, t) => AheadRel(h, u, s0, i, e, s, t), (s: Run, t: Run) => AheadRank(i, e, t);
    var v := Dropped(u, i);
    forall s, t | rel(s, t) && s.Running? ensures exists k: nat, j: nat :: Block(h, u, v, rel, rank, s, t, k, j) {
      var k := AheadBlock(h, u, s0, i, e, s, t);
      assert Steps(h, v, t, 1) == Step(h, v, t);
      assert Block(h, u, v, rel, rank, s, t, k, 1);
    }
  }

  lemma StartAhead(h: Host, u: Code, s: Run, i: nat, e: nat)
    requires Fresh(s) && i <= e
    ensures AheadRel(h, u, s, i, e, s, s)
  {
    hide Exec;
    assert Steps(h, u, s, 0) == s;
  }

  lemma DropKeepsMeaning(h: Host, u: Code, s: Run, i: nat, e: nat)
    requires i <= e && Droppable(h, u, s, i, e) && Fresh(s)
    ensures SameMeaning(h, u, Dropped(u, i), s)
  {
    hide Exec, Droppable, Ends;
    DroppableGoes(h, u, s, i, e);
    AheadSimulates(h, u, s, i, e);
    StartAhead(h, u, s, i, e);
    forall o ensures Ends(h, u, s, o) <==> Ends(h, Dropped(u, i), s, o) {
      SameEnds(h, u, Dropped(u, i), (s', t) => AheadRel(h, u, s, i, e, s', t), (s', t) => AheadRank(i, e, t), s, s, o);
    }
  }

  lemma DropCame(h: Host, u: Code, s: Run, i: nat, e: nat, t: Run) returns (s': Run)
    requires i <= e && Droppable(h, u, s, i, e) && Fresh(s) && Reaches(h, Dropped(u, i), s, t)
    ensures Reaches(h, u, s, s') && Ahead(i, e, s', t)
  {
    hide Exec, Step, Droppable;
    DroppableGoes(h, u, s, i, e);
    AheadSimulates(h, u, s, i, e);
    StartAhead(h, u, s, i, e);
    var n: nat :| Steps(h, Dropped(u, i), s, n) == t;
    CameFrom(h, u, Dropped(u, i), (s', t) => AheadRel(h, u, s, i, e, s', t), (s', t) => AheadRank(i, e, t), s, s, n);
    s' :| Reaches(h, u, s, s') && AheadRel(h, u, s, i, e, s', t);
  }

  // ── what else survives ──

  lemma DropKeepsOrder(h: Host, u: Code, s: Run, i: nat, e: nat)
    requires Droppable(h, u, s, i, e) && Fresh(s) && RunsOrderly(h, u, s)
    ensures RunsOrderly(h, Dropped(u, i), s)
  {
    hide Reaches, Droppable;
    DroppableGoes(h, u, s, i, e);
    forall t | Reaches(h, Dropped(u, i), s, t) ensures Orderly(Dropped(u, i), t) {
      var s' := DropCame(h, u, s, i, e, t);
      if t.Running? {
        DroppedAt(u, i, e, t.pc);
        assert Orderly(u, s');
      }
    }
  }

  lemma DroppableGoes(h: Host, u: Code, s: Run, i: nat, e: nat)
    requires Droppable(h, u, s, i, e)
    ensures Goes(u.ops, i, e)
  {
    hide Exec;
  }

  lemma DropKeepsRoom(h: Host, u: Code, s: Run, i: nat, e: nat)
    requires Droppable(h, u, s, i, e) && Fresh(s) && HoldersHaveRoom(h, u, s)
    ensures HoldersHaveRoom(h, Dropped(u, i), s)
  {
    hide Reaches, Droppable;
    DroppableGoes(h, u, s, i, e);
    forall pc: nat, d | Reaches(h, Dropped(u, i), s, Running(pc, d)) && Holding(OpAt(Dropped(u, i).ops, pc))
      ensures RoomFor(d.core, Innermost(d.loops), 1)
    {
      var s' := DropCame(h, u, s, i, e, Running(pc, d));
      DroppedAt(u, i, e, pc);
      assert Holding(OpAt(u.ops, s'.pc));
    }
  }

  lemma DropKeepsNots(h: Host, u: Code, s: Run, i: nat, e: nat)
    requires Droppable(h, u, s, i, e) && Fresh(s) && NotsFit(h, u, s) && e == Taker(u.ops, i + 2)
        && !FateAt(u.ops, i + 1, true).Never?
    ensures NotsFit(h, Dropped(u, i), s)
  {
    hide Exec, Reaches, Droppable, NotFits, FateAt;
    var out := Dropped(u, i);
    DroppableGoes(h, u, s, i, e);
    forall pc: nat, d | Reaches(h, out, s, Running(pc, d)) ensures NotFitsAt(h, out.ops, pc, d) {
      if OpAt(out.ops, pc) == Un(Not) {
        var s' := DropCame(h, u, s, i, e, Running(pc, d));
        DroppedAt(u, i, e, pc);
        assert NotFitsAt(h, u.ops, s'.pc, d);
        if s'.pc == i {
          TakerFate(u.ops, i);
          FateBehind(u.ops, i, 2, Nop, e + 1, true);
        } else {
          FateRewritten(u.ops, i, 2, Nop, pc + 1, true);
          BetterFits(h, FateAt(u.ops, pc + 1, true), FateAt(out.ops, pc + 1, true), d.core.stack.head);
        }
      }
    }
  }

  lemma {:induction false} NarrowerFree(loops: List<LoopFrame>, i: nat, w: nat, n: nat)
    requires LoopsFree(loops, i, n) && w <= n
    ensures LoopsFree(loops, i, w)
  {
    if loops.Cons? { NarrowerFree(loops.tail, i, w, n); }
  }

  lemma TwiceQuits(ops: seq<OpCode>, i: nat)
    requires Twice(ops, i)
    ensures Quits(ops, i, 2, Nop)
  {
  }

  /** Negations and branches do not look at regions. */
  lemma PlainTame(ops: seq<OpCode>, pc: nat, q: nat, d: State)
    requires OpAt(ops, pc).Nop? || Takes(OpAt(ops, pc))
    requires TameAt(ops, q, d)
    ensures TameAt(ops, pc, d)
  {
    hide NoNext, Adjacent;
  }

  lemma DropKeepsTame(h: Host, u: Code, s: Run, i: nat, e: nat)
    requires Droppable(h, u, s, i, e) && Fresh(s) && Tame(h, u, s)
    ensures Tame(h, Dropped(u, i), s)
  {
    hide Reaches, Droppable, TameAt, Fenced, Quits;
    DroppableGoes(h, u, s, i, e);
    TwiceQuits(u.ops, i);
    FencedRewritten(u.ops, i, 2, Nop);
    assert NoTargetInside(u.ops, i, 2) by { DroppableWindow(h, u, s, i, e); }
    var out := Dropped(u, i);
    forall pc: nat, d | Reaches(h, out, s, Running(pc, d)) ensures TameAt(out.ops, pc, d) {
      var s' := DropCame(h, u, s, i, e, Running(pc, d));
      NarrowerFree(d.loops, i, 2, e - i + 1);
      WindowTame(u.ops, i, 2, Nop, s'.pc, d);
      if pc != s'.pc {
        DroppedAt(u, i, e, pc);
        PlainTame(out.ops, pc, i, d);
      }
    }
  }

  lemma DroppableWindow(h: Host, u: Code, s: Run, i: nat, e: nat)
    requires Droppable(h, u, s, i, e)
    ensures NoTargetInside(u.ops, i, 2)
  {
    hide Exec;
    forall j, t: nat | 0 <= j < |u.ops| && Targets(u.ops[j], t) ensures Free(t, i, 2) { assert Free(t, i, e - i + 1); }
  }

  lemma BetterFits(h: Host, a: Fate, b: Fate, v: Val)
    requires Better(a, b) && NotFits(h, a, v)
    ensures NotFits(h, b, v)
  {
  }

  lemma NotsFitDroppable(h: Host, u: Code, s: Run, i: nat)
    requires Guarded(u.ops) && NotsAgree(h) && NotsFit(h, u, s) && Twice(u.ops, i) && !FateAt(u.ops, i + 1, true).Never?
    ensures Droppable(h, u, s, i, Taker(u.ops, i + 2))
  {
    hide Reaches, Guarded, FateAt, NotsAgree;
    var e := Taker(u.ops, i + 2);
    TakerFate(u.ops, i);
    GoesIsWindow(u, i, e);
    forall d | Reaches(h, u, s, Running(i, d)) ensures d.core.stack.Cons?
        && (u.ops[e].JumpIf? ==> Boolish(h, d.core.stack.head)) {
      assert NotFitsAt(h, u.ops, i, d);
    }
  }

  /** Any double negation, as long as every negation fits. */
  lemma DropKeeps(h: Host, u: Code, s: Run, i: nat)
    requires Good(h, u, s) && Guarded(u.ops) && NotsFit(h, u, s) && Twice(u.ops, i)
        && !FateAt(u.ops, i + 1, true).Never?
    ensures Carried(h, u, Dropped(u, i), s)
  {
    hide Droppable, Guarded, WellFormed, RunsOrderly, NotsFit, HoldersHaveRoom, Tame, SameMeaning, FateAt, NotsAgree,
        Lawful;
    var e := Taker(u.ops, i + 2);
    NotsFitDroppable(h, u, s, i);
    DropKeepsMeaning(h, u, s, i, e);
    DropKeepsOrder(h, u, s, i, e);
    DropKeepsNots(h, u, s, i, e);
    if HoldersHaveRoom(h, u, s) { DropKeepsRoom(h, u, s, i, e); }
    if Tame(h, u, s) { DropKeepsTame(h, u, s, i, e); }
    DropShape(u, i);
  }

  lemma InnerUnguarded(ops: seq<OpCode>, i: nat)
    requires Twice(ops, i)
    ensures !GuardedAt(ops, i + 1)
  {
    assert Lands(ops, i + 1) == Un(Not) && Before(ops, i + 1) == Un(Not);
  }

  lemma DropShape(u: Code, i: nat)
    requires WellFormed(u) && Guarded(u.ops) && Twice(u.ops, i)
    ensures WellFormed(Dropped(u, i)) && Guarded(Dropped(u, i).ops)
  {
    hide WellFormed, GuardedAt;
    forall j, t: nat | 0 <= j < |u.ops| && Targets(u.ops[j], t) ensures Free(t, i, 2) {
      if t == i + 1 { assert GuardedAt(u.ops, t); InnerUnguarded(u.ops, i); }
    }
    RewriteKeepsShape(u, i, 2, Nop);
    RewriteKeepsGuard(u, i, 2, Nop);
  }
}

/** Expanding a unit of flat code: whatever its commands raise, the unit and its
    expansion end alike, errors compared without their trails. */
module UnfusedRuns {
  import opened Options
  import opened Opcodes
  import opened Machine
  import opened Simulation
  import opened Discipline
  import opened Rewriting
  import opened Laws
  import opened Windows
  import opened Trampolines
  import opened Unfusing
  import opened UnfusedSoundness
  import opened Levels
  import opened Apart

  // ── two states ──

  /** Alike but for regions and sites, whose differences no signal sees. */
  predicate Related(ops: seq<OpCode>, k: nat, d: State, e: State) {
    View(true, e) == View(true, d) && Apt(ops, k, d.core.bodies, d.loops, e.core.bodies, e.loops)
  }

  ghost predicate Alongside(ops: seq<OpCode>, s: Run, t: Run) {
    match s
    case Halted(o) => t.Halted? && ViewOut(true, t.o) == ViewOut(true, o)
    case Running(pc, d) => t.Running? && t.pc == pc && exists k: nat :: Related(ops, k, d, t.d)
  }

  lemma Beside(ops: seq<OpCode>, pc: nat, k: nat, d: State, e: State)
    requires Related(ops, k, d, e)
    ensures Alongside(ops, Running(pc, d), Running(pc, e))
  {
  }

  lemma RelatedParts(ops: seq<OpCode>, k: nat, d: State, e: State)
    requires Related(ops, k, d, e)
    ensures BlindCore(d.core) == BlindCore(e.core) && BlindTop(Innermost(d.loops)) == BlindTop(Innermost(e.loops))
    ensures BlindLoops(d.loops) == BlindLoops(e.loops) && (d.loops.Nil? <==> e.loops.Nil?)
    ensures d.loops.Cons? ==>
      && d.loops.head.cont == e.loops.head.cont && d.loops.head.brk == e.loops.head.brk
      && d.loops.head.at.stackLen == e.loops.head.at.stackLen && BlindLoops(d.loops.tail) == BlindLoops(e.loops.tail)
    ensures d.core.stack == e.core.stack && d.core.w == e.core.w
  {
  }

  // ── signals ──

  /** How many loops a `continue` passes by. */
  function Skipped(bodies: List<Region>, loops: List<LoopFrame>): nat
    decreases loops
  {
    if loops.Nil? || !NextAbove(bodies, loops.head.at.bodiesLen) then 0
    else 1 + Skipped(Truncate(bodies, loops.head.at.bodiesLen), loops.tail)
  }

  /** Of two states alike but for regions and sites, a `continue` goes on alike
      exactly when it passes as many loops by. */
  lemma {:induction false} SkippedDecides(f: Fault, d: State, e: State)
    requires View(true, d) == View(true, e) && f == Cnt(1)
    ensures ViewRun(true, Route(f, d)) == ViewRun(true, Route(f, e))
       <==> Skipped(d.core.bodies, d.loops) == Skipped(e.core.bodies, e.loops)
  {
    hide NextAbove, Truncate;
    EscapesAlike(f, d, e);
    RouteEscapes(d);
    RouteEscapes(e);
  }

  lemma RouteEscapes(d: State)
    ensures Route(Cnt(1), d) == Escape(Cnt(1), d)
  {
    hide NextAbove, Truncate;
  }

  lemma {:induction false} EscapesAlike(f: Fault, d: State, e: State)
    requires View(true, d) == View(true, e)
    ensures ViewRun(true, Escape(f, d)) == ViewRun(true, Escape(f, e))
       <==> Skipped(d.core.bodies, d.loops) == Skipped(e.core.bodies, e.loops)
    decreases d.loops
  {
    hide NextAbove, Truncate;
    if d.loops.Cons? {
      var l, m := d.loops.head, e.loops.head;
      var c := d.core.(bodies := Truncate(d.core.bodies, l.at.bodiesLen), stack :=
          Truncate(d.core.stack, l.at.stackLen));
      var b := e.core.(bodies := Truncate(e.core.bodies, m.at.bodiesLen), stack :=
          Truncate(e.core.stack, m.at.stackLen));
      EscapesAlike(f, State(c, d.loops.tail), State(b, e.loops.tail));
      BlindDepth(d.loops, e.loops);
      var r, q := Escape(f, State(c, d.loops.tail)), Escape(f, State(b, e.loops.tail));
      EscapeLeaves(f, State(c, d.loops.tail));
      EscapeLeaves(f, State(b, e.loops.tail));
      if r.Running? && BlindLoops(r.d.loops) == BlindLoops(e.loops) { BlindDepth(r.d.loops, e.loops); }
      if q.Running? && BlindLoops(q.d.loops) == BlindLoops(d.loops) { BlindDepth(q.d.loops, d.loops); }
    }
  }

  lemma BlindDepth(a: List<LoopFrame>, b: List<LoopFrame>)
    requires BlindLoops(a) == BlindLoops(b)
    ensures Depth(a) == Depth(b)
  {
  }

  lemma {:induction false} EscapeLeaves(f: Fault, d: State)
    ensures var r := Escape(f, d); r.Running? ==> Depth(r.d.loops) <= Depth(d.loops)
    decreases d.loops
  {
    hide NextAbove, Truncate;
    if d.loops.Cons? {
      var l := d.loops.head;
      var c := d.core.(bodies := Truncate(d.core.bodies, l.at.bodiesLen), stack :=
          Truncate(d.core.stack, l.at.stackLen));
      EscapeLeaves(f, State(c, d.loops.tail));
    }
  }

  lemma {:induction false} EscapeAlongside(ops: seq<OpCode>, f: Fault, k: nat, d: State, e: State)
    requires Related(ops, k, d, e)
    ensures Alongside(ops, Escape(f, d), Escape(f, e))
    decreases d.loops
  {
    hide Exec, Truncate, Apt;
    RelatedParts(ops, k, d, e);
    if d.loops.Cons? {
      FlagsAgree(ops, k, d.core.bodies, d.loops, e.core.bodies, e.loops);
      var j := CutApt(ops, k, d.core.bodies, d.loops, e.core.bodies, e.loops);
      var l, m := d.loops.head, e.loops.head;
      var c := d.core.(bodies := Truncate(d.core.bodies, l.at.bodiesLen), stack :=
          Truncate(d.core.stack, l.at.stackLen));
      var b := e.core.(bodies := Truncate(e.core.bodies, m.at.bodiesLen), stack :=
          Truncate(e.core.stack, m.at.stackLen));
      if NextAbove(d.core.bodies, l.at.bodiesLen) {
        EscapeAlongside(ops, f, j, State(c, d.loops.tail), State(b, e.loops.tail));
      } else {
        Beside(ops, l.cont, j, State(c.(site := l.at.owner), d.loops), State(b.(site := m.at.owner), e.loops));
      }
    }
  }

  lemma UnwoundRelated(ops: seq<OpCode>, k: nat, d: State, e: State) returns (j: nat)
    requires Related(ops, k, d, e) && d.loops.Cons?
    ensures e.loops.Cons?
    ensures Related(ops, j, d.(core := Unwound(d.core, d.loops.head.at)), e.(core := Unwound(e.core, e.loops.head.at)))
  {
    hide Truncate, Apt;
    RelatedParts(ops, k, d, e);
    j := CutApt(ops, k, d.core.bodies, d.loops, e.core.bodies, e.loops);
  }

  /** Wherever a fault goes, it goes on both sides. */
  lemma RouteAlongside(ops: seq<OpCode>, f: Fault, k: nat, d: State, e: State)
    requires Related(ops, k, d, e)
    ensures Alongside(ops, Route(f, d), Route(f, e))
  {
    hide Exec, Truncate, Apt, Unwound;
    RelatedParts(ops, k, d, e);
    if d.loops.Cons? && (f.Brk? || f.Cnt?) && f.level <= 1 {
      var i := UnwoundRelated(ops, k, d, e);
      var d1, e1 := d.(core := Unwound(d.core, d.loops.head.at)), e.(core := Unwound(e.core, e.loops.head.at));
      Beside(ops, d.loops.head.brk, i, d1, e1);
      Beside(ops, d.loops.head.cont, i, d1, e1);
      FlagsAgree(ops, k, d.core.bodies, d.loops, e.core.bodies, e.loops);
      if f.Cnt? && NextAbove(d.core.bodies, d.loops.head.at.bodiesLen) { EscapeOutward(ops, f, k, d, e); }
    }
  }

  lemma EscapeOutward(ops: seq<OpCode>, f: Fault, k: nat, d: State, e: State)
    requires Related(ops, k, d, e) && d.loops.Cons? && e.loops.Cons?
    ensures var l, m := d.loops.head, e.loops.head;
      var c := d.core.(bodies := Truncate(d.core.bodies, l.at.bodiesLen), stack :=
          Truncate(d.core.stack, l.at.stackLen));
      var b := e.core.(bodies := Truncate(e.core.bodies, m.at.bodiesLen), stack :=
          Truncate(e.core.stack, m.at.stackLen));
      Alongside(ops, Escape(f, State(c, d.loops.tail)), Escape(f, State(b, e.loops.tail)))
  {
    hide Exec, Truncate, Apt;
    RelatedParts(ops, k, d, e);
    var j := CutApt(ops, k, d.core.bodies, d.loops, e.core.bodies, e.loops);
    var l, m := d.loops.head, e.loops.head;
    var c := d.core.(bodies := Truncate(d.core.bodies, l.at.bodiesLen), stack := Truncate(d.core.stack, l.at.stackLen));
    var b := e.core.(bodies := Truncate(e.core.bodies, m.at.bodiesLen), stack := Truncate(e.core.stack, m.at.stackLen));
    EscapeAlongside(ops, f, j, State(c, d.loops.tail), State(b, e.loops.tail));
  }

  // ── what an instruction does to the regions ──

  datatype Move = Stays | Opens(next: bool) | Shuts

  predicate Moves(m: Move, a: List<Region>, b: List<Region>) {
    match m
    case Stays => b == a
    case Opens(next) => b.Cons? && b.tail == a && b.head.Next? == next
    case Shuts => b == Shut(a)
  }

  /** Both sides do the same. */
  ghost predicate Both(h: Host, op: OpCode, c: Core, e: Core, top: Option<Entry>, up: Option<Entry>, m: Move) {
    && Moves(m, c.bodies, ExecCore(h, op, c, top).c.bodies)
    && Moves(m, e.bodies, ExecCore(h, op, e, up).c.bodies)
    && (m.Shuts? ==> Closing(op))
  }

  lemma BothMove(h: Host, op: OpCode, c: Core, e: Core, top: Option<Entry>, up: Option<Entry>) returns (m: Move)
    requires !IsLoopOp(op) && !Swaps(op) && BlindCore(c) == BlindCore(e) && BlindTop(top) == BlindTop(up)
    ensures Both(h, op, c, e, top, up, m)
  {
    if op.Super? { m := FusedMove(h, op.f, c, e, top, up); } else { m := PlainMove(h, op, c, e, top, up); }
  }

  lemma PlainMove(h: Host, op: OpCode, c: Core, e: Core, top: Option<Entry>, up: Option<Entry>) returns (m: Move)
    requires !IsLoopOp(op) && !op.Super? && BlindCore(c) == BlindCore(e) && BlindTop(top) == BlindTop(up)
    ensures Both(h, op, c, e, top, up, m)
  {
    hide ExecCore, Branches;
    match op {
      case SubEnd => ShutMove(h, op, c, top); ShutMove(h, op, e, up); m := Shuts;
      case Jump(_) => ShutMove(h, op, c, top); ShutMove(h, op, e, up); m := Shuts;
      case Mark(k) => MarkMove(h, k, c, top); MarkMove(h, k, e, up); m := Opens(k.NextMark?);
      case JumpIf(want, t) =>
        BranchMove(h, want, t, c, top);
        BranchMove(h, want, t, e, up);
        m := if Truth(h, Top(h, c)) == Says(!want) then Opens(false) else Stays;
      case _ => StillMove(h, op, c, top); StillMove(h, op, e, up); m := Stays;
    }
  }

  lemma ShutMove(h: Host, op: OpCode, c: Core, top: Option<Entry>)
    requires op.SubEnd? || op.Jump?
    ensures ExecCore(h, op, c, top).c.bodies == Shut(c.bodies)
  {
    hide ExecFused;
  }

  lemma MarkMove(h: Host, k: MarkOp, c: Core, top: Option<Entry>)
    ensures Moves(Opens(k.NextMark?), c.bodies, ExecCore(h, Mark(k), c, top).c.bodies)
  {
    hide ExecFused;
  }

  lemma BranchMove(h: Host, want: bool, t: nat, c: Core, top: Option<Entry>)
    ensures Moves(if Truth(h, Top(h, c)) == Says(!want) then Opens(false) else Stays, c.bodies,
        ExecCore(h, JumpIf(want, t), c, top).c.bodies)
  {
    hide ExecFused, Truncate, Truth;
  }

  lemma StillMove(h: Host, op: OpCode, c: Core, top: Option<Entry>)
    requires !IsLoopOp(op) && !op.Super? && !op.SubEnd? && !op.Jump? && !op.Mark? && !op.JumpIf?
    ensures ExecCore(h, op, c, top).c.bodies == c.bodies
  {
    hide ExecFused, Truncate, TakeArgs, BinVal, UnVal, PushAll;
  }

  lemma FusedMove(h: Host, g: FusedOp, c: Core, e: Core, top: Option<Entry>, up: Option<Entry>) returns (m: Move)
    requires !Swaps(Super(g)) && BlindCore(c) == BlindCore(e) && BlindTop(top) == BlindTop(up)
    ensures Both(h, Super(g), c, e, top, up, m)
  {
    hide ExecFused, ExecCore;
    SuperRuns(h, g, c, top);
    SuperRuns(h, g, e, up);
    if g.SetAdd? { m := SetAddMove(h, g, c, e, top, up); }
    else if ReadsOperands(g) { m := ReadsMove(h, g, c, e, top, up); }
    else { m := OtherMove(h, g, c, e, top, up); }
  }

  lemma SetAddMove(h: Host, g: FusedOp, c: Core, e: Core, top: Option<Entry>, up: Option<Entry>) returns (m: Move)
    requires g.SetAdd? && BlindCore(c) == BlindCore(e) && BlindTop(top) == BlindTop(up)
    ensures Moves(m, c.bodies, ExecFused(h, g, c, top).c.bodies) && Moves(m, e.bodies, ExecFused(h, g, e, up).c.bodies)
        && !m.Shuts?
  {
    hide ExecFused, Deep;
    SetAddBodies(h, g, c, top);
    SetAddBodies(h, g, e, up);
    m := if Deep(h, g, c.w) then Opens(false) else Stays;
  }

  /** `set x [expr {$a + $b}]` fails inside the bracket. */
  predicate Deep(h: Host, g: FusedOp, w: World)
    requires g.SetAdd?
  {
    var r1 := h.ask(w, Begin(g.setSite));
    r1.1.Ok? &&
    var r2 := h.ask(r1.0, Begin(g.exprSite));
    r2.1.Fault? ||
    var ra := h.ask(r2.0, Read(g.a));
    ra.1.Fault? ||
    var rb := h.ask(ra.0, Read(g.b));
    rb.1.Fault? || BinVal(h, Add, ra.1.v, rb.1.v).Fault?
  }

  lemma SetAddBodies(h: Host, g: FusedOp, c: Core, top: Option<Entry>)
    requires g.SetAdd?
    ensures var b := ExecFused(h, g, c, top).c.bodies;
      if Deep(h, g, c.w) then b.Cons? && b.tail == c.bodies && !b.head.Next? else b == c.bodies
  {
    hide Truncate, BinVal;
  }

  lemma ReadsMove(h: Host, g: FusedOp, c: Core, e: Core, top: Option<Entry>, up: Option<Entry>) returns (m: Move)
    requires ReadsOperands(g) && !g.SetAdd? && BlindCore(c) == BlindCore(e) && BlindTop(top) == BlindTop(up)
    ensures Moves(m, c.bodies, ExecFused(h, g, c, top).c.bodies) && Moves(m, e.bodies, ExecFused(h, g, e, up).c.bodies)
        && !m.Shuts?
  {
    hide Truncate, BinVal, CmpBool, ExecSetAdd;
    if g.CmpRRJump? || g.CmpRIJump? {
      m := if ExecFused(h, g, c, top).CFall? then Opens(false) else Stays;
    } else {
      ReadsStay(h, g, c, top);
      ReadsStay(h, g, e, up);
      m := Stays;
    }
  }

  lemma ReadsStay(h: Host, g: FusedOp, c: Core, top: Option<Entry>)
    requires ReadsOperands(g) && !g.SetAdd? && !g.CmpRRJump? && !g.CmpRIJump?
    ensures ExecFused(h, g, c, top).c.bodies == c.bodies
  {
    hide Truncate, BinVal, CmpBool, ExecSetAdd;
  }

  predicate ClosesFirst(g: FusedOp) { g.SubEndStorePop? || g.SubEndReturn? || g.SubEndCall? || g.SubEndAdd? }

  lemma ClosingMove(h: Host, g: FusedOp, c: Core, e: Core, top: Option<Entry>, up: Option<Entry>)
    requires ClosesFirst(g) && BlindCore(c) == BlindCore(e)
    ensures Moves(Shuts, c.bodies, ExecFused(h, g, c, top).c.bodies)
        && Moves(Shuts, e.bodies, ExecFused(h, g, e, up).c.bodies)
    ensures Closing(Super(g))
  {
    hide Truncate, BinVal, TakeArgs;
  }

  lemma OtherMove(h: Host, g: FusedOp, c: Core, e: Core, top: Option<Entry>, up: Option<Entry>) returns (m: Move)
    requires !Swaps(Super(g)) && !ReadsOperands(g) && BlindCore(c) == BlindCore(e) && BlindTop(top) == BlindTop(up)
    ensures Moves(m, c.bodies, ExecFused(h, g, c, top).c.bodies) && Moves(m, e.bodies, ExecFused(h, g, e, up).c.bodies)
    ensures m.Shuts? ==> Closing(Super(g))
  {
    if ClosesFirst(g) {
      ClosingMove(h, g, c, e, top, up);
      return Shuts;
    }
    hide Truncate, BinVal, TakeArgs;
    match g {
      case BeginCmdSubMark(_) => m := if ExecFused(h, g, c, top).CFall? then Opens(false) else Stays;
      case ExprMarkBeginCmd(_) => m := Opens(false);
      case ExprMarkBeginPushConst(_, _) => m := Opens(false);
      case PushConstSubMark(_) => m := Opens(false);
      case SubMarkBeginCmd(_) => m := Opens(false);
      case NextMarkBeginCmd(_) => m := Opens(true);
      case _ => m := Stays;
    }
  }

  /** The regions after one move on both sides. */
  lemma MovedApt(ops: seq<OpCode>, k: nat, m: Move, a: List<Region>, a1: List<Region>, la: List<LoopFrame>,
                 b: List<Region>, b1: List<Region>, lb: List<LoopFrame>) returns (j: nat)
    requires Apt(ops, k, a, la, b, lb) && Moves(m, a, a1) && Moves(m, b, b1)
    requires m.Shuts? && la.Cons? ==> Depth(a) > la.head.at.bodiesLen + Slack(ops, la.head)
    ensures Apt(ops, j, a1, la, b1, lb)
  {
    hide Apt;
    match m
    case Stays => j := k;
    case Opens(_) => j := OpenApt(ops, k, a, la, b, lb, a1.head, b1.head);
    case Shuts => j := ShutApt(ops, k, a, la, b, lb);
  }

  /** An instruction that leaves the loops alone. */
  lemma CoreAlongside(ops: seq<OpCode>, h: Host, infos: seq<ForeachInfo>, op: OpCode, pc: nat, k: nat, d: State,
          e: State)
    requires !IsLoopOp(op) && !Swaps(op) && Related(ops, k, d, e)
    requires Closing(op) && d.loops.Cons? ==>
        Depth(d.core.bodies) > d.loops.head.at.bodiesLen + Slack(ops, d.loops.head)
    ensures Alongside(ops, After(pc, Exec(h, infos, op, d)), After(pc, Exec(h, infos, op, e)))
  {
    hide ExecCore, ExecLoop, Apt, Route, Moves, Slack, Closing, Swaps;
    RelatedParts(ops, k, d, e);
    var top, up := Innermost(d.loops), Innermost(e.loops);
    var m := BothMove(h, op, d.core, e.core, top, up);
    BlindExec(h, op, d.core, top);
    BlindExec(h, op, e.core, up);
    var r, q := ExecCore(h, op, d.core, top), ExecCore(h, op, e.core, up);
    assert ViewCore(true, r) == ViewCore(true, q);
    var j := MovedApt(ops, k, m, d.core.bodies, r.c.bodies, d.loops, e.core.bodies, q.c.bodies, e.loops);
    CtlAlongside(ops, pc, j, r, q, d.loops, e.loops);
  }

  lemma CtlAlongside(ops: seq<OpCode>, pc: nat, j: nat, r: CoreCtl, q: CoreCtl, la: List<LoopFrame>,
          lb: List<LoopFrame>)
    requires ViewCore(true, r) == ViewCore(true, q) && BlindLoops(la) == BlindLoops(lb)
    requires Apt(ops, j, r.c.bodies, la, q.c.bodies, lb)
    ensures Alongside(ops, After(pc, Lift(r, la)), After(pc, Lift(q, lb)))
  {
    hide Apt, Route;
    var d, e := State(r.c, la), State(q.c, lb);
    assert Related(ops, j, d, e);
    match r
    case CFall(_) => Beside(ops, pc + 1, j, d, e);
    case CGoto(t, _) => Beside(ops, t, j, d, e);
    case CRaise(f, _) => RouteAlongside(ops, f, j, d, e);
  }

  // ── loop control ──

  lemma LoopAlongside(ops: seq<OpCode>, h: Host, infos: seq<ForeachInfo>, op: OpCode, pc: nat, k: nat, d: State,
          e: State)
    requires IsLoopOp(op) && Related(ops, k, d, e)
    requires Leaving(op) && d.loops.Cons? && Slack(ops, d.loops.head) > 0 ==>
        Depth(d.core.bodies) == d.loops.head.at.bodiesLen
    ensures Alongside(ops, After(pc, Exec(h, infos, op, d)), After(pc, Exec(h, infos, op, e)))
  {
    hide ExecCore, Apt, Route, Slack, Truncate, TakeArgs, ExecForeachStart, Unwound, Settle;
    RelatedParts(ops, k, d, e);
    match op.l {
      case LoopEnter(c, b) =>
        EnterRelated(ops, k, d, e, c, b);
        Beside(ops, pc + 1, k, d.(loops := Cons(LoopFrame(c, b, EntryNow(d.core)), d.loops)),
            e.(loops := Cons(LoopFrame(c, b, EntryNow(e.core)), e.loops)));
      case LoopExit =>
        var j := LeaveRelated(ops, k, d, e);
        Beside(ops, pc + 1, j, Outside(d), Outside(e));
      case ForeachEnd => EndAlongside(ops, h, infos, pc, k, d, e);
      case ForeachStart(i, n, b) => StartAlongside(ops, h, infos, i, n, b, pc, k, d, e);
      case Break => LeaveAlongside(ops, pc, true, k, d, e);
      case Continue => LeaveAlongside(ops, pc, false, k, d, e);
    }
  }

  function Outside(d: State): State { d.(loops := if d.loops.Nil? then Nil else d.loops.tail) }

  lemma EnterRelated(ops: seq<OpCode>, k: nat, d: State, e: State, cont: nat, brk: nat)
    requires Related(ops, k, d, e)
    ensures Related(ops, k, d.(loops := Cons(LoopFrame(cont, brk, EntryNow(d.core)), d.loops)),
        e.(loops := Cons(LoopFrame(cont, brk, EntryNow(e.core)), e.loops)))
  {
    hide Apt;
    EnterApt(ops, k, d.core.bodies, d.loops, e.core.bodies, e.loops, LoopFrame(cont, brk, EntryNow(d.core)),
        LoopFrame(cont, brk, EntryNow(e.core)));
  }

  lemma LeaveRelated(ops: seq<OpCode>, k: nat, d: State, e: State) returns (j: nat)
    requires Related(ops, k, d, e)
    requires d.loops.Cons? && Slack(ops, d.loops.head) > 0 ==> Depth(d.core.bodies) == d.loops.head.at.bodiesLen
    ensures Related(ops, j, Outside(d), Outside(e))
  {
    hide Apt, Slack;
    RelatedParts(ops, k, d, e);
    if d.loops.Cons? { j := LeaveApt(ops, k, d.core.bodies, d.loops, e.core.bodies, e.loops); } else { j := k; }
  }

  lemma EndAlongside(ops: seq<OpCode>, h: Host, infos: seq<ForeachInfo>, pc: nat, k: nat, d: State, e: State)
    requires Related(ops, k, d, e)
    requires d.loops.Cons? && Slack(ops, d.loops.head) > 0 ==> Depth(d.core.bodies) == d.loops.head.at.bodiesLen
    ensures Alongside(ops, Now(pc + 1, ExecForeachEnd(h, d)), Now(pc + 1, ExecForeachEnd(h, e)))
  {
    hide Apt, Slack;
    RelatedParts(ops, k, d, e);
    var j := LeaveRelated(ops, k, d, e);
    Beside(ops, pc + 1, j, ExecForeachEnd(h, d), ExecForeachEnd(h, e));
  }

  lemma LeaveAlongside(ops: seq<OpCode>, pc: nat, brk: bool, k: nat, d: State, e: State)
    requires Related(ops, k, d, e)
    ensures Alongside(ops, After(pc, Leave(d, brk)), After(pc, Leave(e, brk)))
  {
    hide Apt, Unwound;
    RelatedParts(ops, k, d, e);
    if d.loops.Cons? {
      var j := UnwoundRelated(ops, k, d, e);
      var l := d.loops.head;
      Beside(ops, if brk then l.brk else l.cont, j, d.(core := Unwound(d.core, l.at)),
          e.(core := Unwound(e.core, e.loops.head.at)));
    }
  }

  lemma SettledRelated(ops: seq<OpCode>, k: nat, c: Core, b: Core, la: List<LoopFrame>, lb: List<LoopFrame>)
    requires Related(ops, k, State(c, la), State(b, lb))
    ensures Related(ops, k, State(Settle(c, Innermost(la)), la), State(Settle(b, Innermost(lb)), lb))
  {
    hide Apt, Truncate;
    RelatedParts(ops, k, State(c, la), State(b, lb));
  }

  lemma RaiseAlongside(ops: seq<OpCode>, f: Fault, k: nat, c: Core, b: Core, la: List<LoopFrame>, lb: List<LoopFrame>)
    requires Related(ops, k, State(c, la), State(b, lb))
    ensures Alongside(ops, Route(f, State(Settle(c, Innermost(la)), la)), Route(f, State(Settle(b, Innermost(lb)), lb)))
  {
    hide Related, Route, Settle, Alongside;
    SettledRelated(ops, k, c, b, la, lb);
    RouteAlongside(ops, f, k, State(Settle(c, Innermost(la)), la), State(Settle(b, Innermost(lb)), lb));
  }

  lemma StartAlongside(ops: seq<OpCode>, h: Host, infos: seq<ForeachInfo>, i: nat, n: nat, end: nat, pc: nat, k: nat,
          d: State, e: State)
    requires Related(ops, k, d, e)
    ensures Alongside(ops, After(pc, ExecForeachStart(h, infos, i, n, end, d)),
        After(pc, ExecForeachStart(h, infos, i, n, end, e)))
  {
    hide Apt, Route, Settle, TakeArgs, Truncate;
    RelatedParts(ops, k, d, e);
    if i >= |infos| {
      RaiseAlongside(ops, Panic, k, d.core, e.core, d.loops, e.loops);
    } else {
      var fi := infos[i];
      var a := TakeArgs(d.core.stack, fi.groups);
      var r, q := Asked(h, d.core.(stack := a.1), OpenLists(i, a.0)),
          Asked(h, e.core.(stack := a.1), OpenLists(i, a.0));
      assert Related(ops, k, State(r.0, d.loops), State(q.0, e.loops));
      if r.1.Fault? {
        RaiseAlongside(ops, r.1.f, k, r.0, q.0, d.loops, e.loops);
      } else {
        var ff := ForeachFrame(a.0, 0, h.iters(i, a.0), if fi.lmap then Some([]) else None, fi.framed, fi.lmap);
        var c, b := r.0.(foreaches := Cons(ff, r.0.foreaches)), q.0.(foreaches := Cons(ff, q.0.foreaches));
        assert Related(ops, k, State(c, d.loops), State(b, e.loops));
        EnterRelated(ops, k, State(c, d.loops), State(b, e.loops), n, end);
        var la, lb := Cons(LoopFrame(n, end, EntryNow(c)), d.loops), Cons(LoopFrame(n, end, EntryNow(b)), e.loops);
        Beside(ops, end, k, State(c, la), State(b, lb));
        var x, y := Asked(h, c, Bind(i, a.0, 0)), Asked(h, b, Bind(i, a.0, 0));
        assert Related(ops, k, State(x.0, la), State(y.0, lb));
        Beside(ops, pc + 1, k, State(x.0, la), State(y.0, lb));
        if x.1.Fault? { RaiseAlongside(ops, x.1.f, k, x.0, y.0, la, lb); }
      }
    }
  }

  // ── loop-closing superinstructions ──

  lemma NormalizedBodies(c: Core, l: LoopFrame)
    ensures Normalized(c, Some(l.at)).bodies == Truncate(c.bodies, l.at.bodiesLen)
  {
  }

  lemma ForTailBodies(h: Host, c: Core, s: nat, x: Loc, k: int, t: nat, at: Entry)
    ensures var r := ForTail(h, c, s, x, k, t, Some(at)); var low := Truncate(c.bodies, at.bodiesLen);
      !r.CFall? &&
      if r.CGoto? then r.c.bodies == low
      else r.c.bodies.Cons? && r.c.bodies.tail == low && r.c.bodies.head.Next?
  {
    hide Truncate;
  }

  lemma ForSeqBodies(h: Host, c: Core, s: nat, x: Loc, k: int, t: nat, top: Option<Entry>)
    ensures var q := CoreSeq(h, ExpandFused(ForNextIncr(s, x, k, t)), c, top);
      !q.CFall? &&
      if q.CGoto? then q.c.bodies == c.bodies
      else q.c.bodies.Cons? && q.c.bodies.tail == c.bodies && q.c.bodies.head.Next?
  {
    hide CoreSeq, ExecCore, AskDrop;
    var a, b, e := [Nop, Mark(NextMark)], [BeginCmd(s), Incr(x, k), Pop], [Jump(t)];
    assert ExpandFused(ForNextIncr(s, x, k, t)) == a + (b + e);
    CoreSeqAdd(h, a, b + e, c, top);
    NextRuns(h, c, top);
    var c1 := Marked(c, NextMark);
    CoreSeqAdd(h, b, e, c1, top);
    BeginIncr(h, s, x, k, c1, top);
    var r := ExecFused(h, BeginCmdIncrPop(s, x, k), c1, top);
    assert r.c.bodies == c1.bodies && !r.CGoto? by { IncrBodies(h, s, x, k, c1, top); }
    if r.CFall? {
      Core1(h, Jump(t), r.c, top);
      ShutMove(h, Jump(t), r.c, top);
      JumpGoes(h, t, r.c, top);
    }
  }

  lemma JumpGoes(h: Host, t: nat, c: Core, top: Option<Entry>)
    ensures ExecCore(h, Jump(t), c, top).CGoto?
  {
    hide ExecFused;
  }

  lemma IncrBodies(h: Host, s: nat, x: Loc, k: int, c: Core, top: Option<Entry>)
    ensures var r := ExecFused(h, BeginCmdIncrPop(s, x, k), c, top); r.c.bodies == c.bodies && !r.CGoto?
  {
    hide Truncate;
  }

  /** The regions on both sides of a fused end of a pass. */
  lemma SwapApt(ops: seq<OpCode>, h: Host, pc: nat, d: State, e: State) returns (j: nat)
    requires Related(ops, 0, d, e) && d.loops.Cons? && e.loops.Cons? && Swaps(OpAt(ops, pc))
    requires OpAt(ops, pc).f.ForeachNextClose? ==> Slack(ops, d.loops.head) == 1
    requires var g := OpAt(ops, pc).f; var q := CoreSeq(h, ExpandFused(g), e.core, Innermost(e.loops));
      ViewCore(true, q) == ViewCore(true, ExecFused(h, g, d.core, Innermost(d.loops)))
    ensures var g := OpAt(ops, pc).f;
      Apt(ops, j, ExecFused(h, g, d.core, Innermost(d.loops)).c.bodies, d.loops,
          CoreSeq(h, ExpandFused(g), e.core, Innermost(e.loops)).c.bodies, e.loops)
  {
    hide CoreSeq, ExecCore, Truncate, Slack, Loose, Advance, ForTail;
    var g, top, up := OpAt(ops, pc).f, Innermost(d.loops), Innermost(e.loops);
    var r, q := ExecFused(h, g, d.core, top), CoreSeq(h, ExpandFused(g), e.core, up);
    var a, b, low := d.core.bodies, e.core.bodies, Truncate(d.core.bodies, d.loops.head.at.bodiesLen);
    SwapLoose(ops, a, d.loops, b, e.loops);
    NormalizedBodies(d.core, d.loops.head);
    match g {
      case SwapToNextMark =>
        NextRuns(h, e.core, up);
        j := OpenApt(ops, 0, low, d.loops, b, e.loops, r.c.bodies.head, q.c.bodies.head);
      case ForeachNextClose(info, body) =>
        j := 0;
        CloseBodies(h, info, body, d.core, top);
        PlainBodies(h, info, body, e.core, up);
        if r.CGoto? { PassLoose(ops, a, d.loops, b, e.loops, r.c.bodies.head); }
      case ForNextIncr(s, x, k, t) =>
        ForTailBodies(h, d.core, s, x, k, t, d.loops.head.at);
        ForSeqBodies(h, e.core, s, x, k, t, up);
        if r.CGoto? { j := 0;
            } else { j := OpenApt(ops, 0, low, d.loops, b, e.loops, r.c.bodies.head, q.c.bodies.head); }
    }
  }

  lemma CloseBodies(h: Host, info: nat, body: nat, c: Core, top: Option<Entry>)
    ensures var r := ExecFused(h, ForeachNextClose(info, body), c, top); var low := Normalized(c, top).bodies;
      if r.CGoto? then r.c.bodies.Cons? && r.c.bodies.tail == low && !r.c.bodies.head.Next? else r.c.bodies == low
  {
    hide Truncate, Normalized;
  }

  lemma PlainBodies(h: Host, info: nat, body: nat, e: Core, up: Option<Entry>)
    ensures CoreSeq(h, ExpandFused(ForeachNextClose(info, body)), e, up).c.bodies == e.bodies
  {
    hide CoreSeq;
    Core2(h, Nop, Loop(ForeachNext(info, body)), e, up);
    assert Two(h, Nop, Loop(ForeachNext(info, body)), e, up) == Advance(h, e, info, body, false, up);
  }

  lemma SwapAlongside(ops: seq<OpCode>, h: Host, infos: seq<ForeachInfo>, pc: nat, k: nat, d: State, e: State)
    requires pc < |ops| && Swaps(OpAt(ops, pc)) && Related(ops, k, d, e) && TameAt(ops, pc, d)
    ensures Alongside(ops, After(pc, Exec(h, infos, OpAt(ops, pc), d)),
        After(pc, ExecSeq(h, infos, Expand(OpAt(ops, pc)), e)))
  {
    hide CoreSeq, ExecCore, ExecFused, Apt, ExpandFused, NoNext, Adjacent, ExecLoop, After;
    var op := ops[pc];
    RelatedParts(ops, k, d, e);
    QuietApt(ops, k, d.core.bodies, d.loops, e.core.bodies, e.loops);
    var top, up := Innermost(d.loops), Innermost(e.loops);
    assert !IsLoopOp(op);
    ExpandNoLoop(op);
    SeqCore(h, infos, Expand(op), e);
    SwapBlind(h, op.f, e.core, up);
    BlindFused(h, op.f, d.core, top);
    BlindFused(h, op.f, e.core, up);
    SuperRuns(h, op.f, d.core, top);
    assert op.f.ForeachNextClose? ==> Slack(ops, d.loops.head) == 1;
    var j := SwapApt(ops, h, pc, d, e);
    CtlAlongside(ops, pc, j, ExecFused(h, op.f, d.core, top), CoreSeq(h, Expand(op), e.core, up), d.loops, e.loops);
  }

  // ── runs ──

  lemma {:induction false} NopsReach(h: Host, u: Code, s: Run, t: nat, q: nat, d: State)
    requires Reaches(h, u, s, Running(t, d)) && t <= q < |u.ops| && forall k | t <= k < q :: u.ops[k].Nop?
    ensures Reaches(h, u, s, Running(q, d))
    decreases q - t
  {
    hide Exec, Reaches;
    if t < q {
      NopFalls(h, u.infos, d);
      ReachesStep(h, u, s, Running(t, d), 1);
      assert Steps(h, u, Running(t, d), 1) == Running(t + 1, d) by { OneIsStep(h, u, Running(t, d)); }
      NopsReach(h, u, s, t + 1, q, d);
    }
  }

  /** Behind a jump to a plain advance there is no slack. */
  lemma AdjacentTight(h: Host, u: Code, s: Run, pc: nat, d: State)
    requires Tame(h, u, s) && Reaches(h, u, s, Running(pc, d)) && Adjacent(u.ops, pc) && d.loops.Cons?
    ensures Slack(u.ops, d.loops.head) == 0
  {
    hide Reaches, NoNext, Exec;
    var q: nat :| AdjacentTo(u.ops, pc, q);
    var n := State(Closed(d.core), d.loops);
    ReachesStep(h, u, s, Running(pc, d), 1);
    assert Steps(h, u, Running(pc, d), 1) == Running(u.ops[pc].t, n) by {
      OneIsStep(h, u, Running(pc, d));
      JumpSteps(h, u.infos, u.ops[pc].t, d);
    }
    NopsReach(h, u, s, u.ops[pc].t, q, n);
    assert TameAt(u.ops, q, n);
  }

  /** Where the expansion may lack a region, none of the loop's own is closed. */
  lemma TameCloses(h: Host, u: Code, s: Run, pc: nat, d: State)
    requires Tame(h, u, s) && Reaches(h, u, s, Running(pc, d)) && Closing(OpAt(u.ops, pc)) && d.loops.Cons?
    ensures Depth(d.core.bodies) > d.loops.head.at.bodiesLen + Slack(u.ops, d.loops.head)
  {
    hide Reaches, NoNext, Adjacent;
    assert TameAt(u.ops, pc, d);
    if Adjacent(u.ops, pc) { AdjacentTight(h, u, s, pc, d); }
  }

  lemma JumpSteps(h: Host, infos: seq<ForeachInfo>, t: nat, d: State)
    ensures Exec(h, infos, Jump(t), d) == Goto(t, State(Closed(d.core), d.loops))
  {
    hide ExecFused;
  }

  /** What the theorem asks of a unit and its start. */
  ghost predicate Flat(h: Host, u: Code, start: Run) { Fresh(start) && RunsRoomy(h, u, start) && Tame(h, u, start) }

  lemma RelatedRoom(ops: seq<OpCode>, k: nat, d: State, e: State, n: nat)
    requires Related(ops, k, d, e) && RoomFor(d.core, Innermost(d.loops), n)
    ensures RoomFor(e.core, Innermost(e.loops), n)
  {
    hide Apt;
    RelatedParts(ops, k, d, e);
  }

  /** One instruction and its expansion. */
  lemma StepAlongside(h: Host, u: Code, start: Run, pc: nat, k: nat, d: State, e: State)
    requires Flat(h, u, start) && Reaches(h, u, start, Running(pc, d)) && pc < |u.ops| && Related(u.ops, k, d, e)
    ensures Alongside(u.ops, After(pc, Exec(h, u.infos, OpAt(u.ops, pc), d)),
        After(pc, ExecSeq(h, u.infos, Expand(OpAt(u.ops, pc)), e)))
  {
    hide Reaches, Exec, ExecSeq, Expand, Apt, NoNext, Adjacent, Alongside, Swaps, Closing, Slack, After, Holding,
        Related;
    var op := u.ops[pc];
    assert TameAt(u.ops, pc, d);
    if Swaps(op) {
      SwapAlongside(u.ops, h, u.infos, pc, k, d, e);
    } else {
      RelatedRoom(u.ops, k, d, e, if Holding(op) then 1 else 0);
      ExpandViewed(false, h, u.infos, op, e);
      if IsLoopOp(op) {
        assert Leaving(op) && d.loops.Cons? && Slack(u.ops, d.loops.head) > 0 ==>
            Depth(d.core.bodies) == d.loops.head.at.bodiesLen by {
          if d.loops.Cons? { SlackIterates(u.ops, d.loops); }
        }
        LoopAlongside(u.ops, h, u.infos, op, pc, k, d, e);
      } else {
        if Closing(op) && d.loops.Cons? { TameCloses(h, u, start, pc, d); }
        CoreAlongside(u.ops, h, u.infos, op, pc, k, d, e);
      }
    }
  }

  lemma SlackIterates(ops: seq<OpCode>, loops: List<LoopFrame>)
    requires loops.Cons?
    ensures Slack(ops, loops.head) > 0 ==> Iterates(ops, loops)
  {
  }

  /** `t` is alongside `s` in the expanded unit. */
  ghost predicate Follows(ops: seq<OpCode>, s: Run, t: Run) {
    exists m :: Alongside(ops, s, m) && t == MapRun(m, Offsets(ops))
  }

  lemma FollowStep(h: Host, u: Code, start: Run, s: Run, t: Run) returns (j: nat)
    requires Flat(h, u, start) && Reaches(h, u, start, s) && Follows(u.ops, s, t)
    ensures j >= 1 && Follows(u.ops, Step(h, u, s), Steps(h, Expanded(u), t, j))
  {
    hide Reaches, Exec, ExecSeq, Expand, Apt, MapState, Offsets, Flat, Unfused, MapAll;
    var m :| Alongside(u.ops, s, m) && t == MapRun(m, Offsets(u.ops));
    if s.Halted? {
      j := 1;
      assert Steps(h, Expanded(u), t, 1) == t by { HaltedStays(h, Expanded(u), t, 1); }
    } else {
      var k: nat :| Related(u.ops, k, s.d, m.d);
      if s.pc < |u.ops| {
        j := WindowRuns(h, u, s.pc, m.d);
        StepAlongside(h, u, start, s.pc, k, s.d, m.d);
        OffsetsAt(u.ops, s.pc);
      } else {
        j := 1;
        RelatedParts(u.ops, k, s.d, m.d);
        EndMatched(h, u, s, m.d);
        HaltsAlongside(h, u, s, m.d.core);
      }
    }
  }

  lemma HaltsAlongside(h: Host, u: Code, s: Run, c: Core)
    requires s.Running? && s.pc >= |u.ops| && BlindCore(c) == BlindCore(s.d.core)
    ensures Follows(u.ops, Step(h, u, s), Halted(Outcome.Value(Top(h, c), c)))
  {
    hide Exec, Offsets, MapState;
    var o := Halted(Outcome.Value(Top(h, c), c));
    assert c.stack == BlindCore(c).stack == s.d.core.stack;
    assert Alongside(u.ops, Step(h, u, s), o) && o == MapRun(o, Offsets(u.ops));
  }

  lemma {:induction false} RunFollows(h: Host, u: Code, start: Run, n: nat) returns (m: nat)
    requires Flat(h, u, start)
    ensures m >= n && Follows(u.ops, Steps(h, u, start, n), Steps(h, Expanded(u), start, m))
  {
    hide Exec, Step, Follows, Unfused, Tame, RunsRoomy;
    if n == 0 {
      m := 0;
      StartFollows(u, start);
    } else {
      var k := RunFollows(h, u, start, n - 1);
      var s, t := Steps(h, u, start, n - 1), Steps(h, Expanded(u), start, k);
      assert Reaches(h, u, start, s);
      var j := FollowStep(h, u, start, s, t);
      StepsAdd(h, u, start, n - 1, 1);
      assert Steps(h, u, s, 1) == Step(h, u, s) by { OneIsStep(h, u, s); }
      StepsAdd(h, Expanded(u), start, k, j);
      m := k + j;
    }
  }

  lemma StartFollows(u: Code, start: Run)
    requires Fresh(start)
    ensures Follows(u.ops, start, start)
  {
    assert Related(u.ops, 0, start.d, start.d);
    assert Alongside(u.ops, start, start);
    StartMatched(u, start);
  }

  lemma HaltedFollows(ops: seq<OpCode>, s: Run, t: Run)
    requires Follows(ops, s, t)
    ensures s.Halted? <==> t.Halted?
    ensures s.Halted? ==> ViewOut(true, t.o) == ViewOut(true, s.o)
  {
    hide Offsets, MapState, Related;
  }

  /** Whatever commands raise, a flat unit and its expansion end alike, with the
      same operands, errors compared without their trails, and run forever
      alike. */
  lemma UnfusedKeepsMeaning(h: Host, u: Code, start: Run, o: Outcome)
    requires Flat(h, u, start)
    ensures (exists t :: Ends(h, u, start, t) && ViewOut(true, t) == ViewOut(true, o))
       <==> (exists t :: Ends(h, Expanded(u), start, t) && ViewOut(true, t) == ViewOut(true, o))
  {
    hide Step, Flat, Unfused, Follows;
    var v := Expanded(u);
    if t :| Ends(h, u, start, t) && ViewOut(true, t) == ViewOut(true, o) {
      var n: nat :| Steps(h, u, start, n) == Halted(t);
      var m := RunFollows(h, u, start, n);
      HaltedFollows(u.ops, Steps(h, u, start, n), Steps(h, v, start, m));
      var t' := Steps(h, v, start, m).o;
      assert Ends(h, v, start, t') && ViewOut(true, t') == ViewOut(true, o);
    }
    if t' :| Ends(h, v, start, t') && ViewOut(true, t') == ViewOut(true, o) {
      var n: nat :| Steps(h, v, start, n) == Halted(t');
      var m := RunFollows(h, u, start, n);
      StepsAdd(h, v, start, n, m - n);
      HaltedStays(h, v, Halted(t'), m - n);
      HaltedFollows(u.ops, Steps(h, u, start, n), Steps(h, v, start, m));
      var t := Steps(h, u, start, n).o;
      assert Ends(h, u, start, t) && ViewOut(true, t) == ViewOut(true, o);
    }
  }
}

/** The bytecode buffer: instructions are appended, patched and rewritten in
    place, with a line for every instruction. */
module ByteCodes {
  import opened Options
  import opened Opcodes
  import opened Discipline
  import opened Rewriting
  import opened Stripping
  import opened Windows
  import opened Trampolines
  import opened Passes
  import opened Ranges
  import Unfusing

  // ── lines under the passes ──

  /** The lines of the instructions kept among the first `n`. */
  function KeptLines(ops: seq<OpCode>, lines: seq<nat>, n: nat): seq<nat>
    requires n <= |ops| == |lines|
  {
    if n == 0 then [] else KeptLines(ops, lines, n - 1) + (if ops[n - 1].Nop? then [] else [lines[n - 1]])
  }

  function StripLines(ops: seq<OpCode>, lines: seq<nat>): seq<nat>
    requires |ops| == |lines|
  {
    KeptLines(ops, lines, |ops|)
  }

  function PassLines(ops: seq<OpCode>, lines: seq<nat>): seq<nat>
    requires |ops| == |lines|
  {
    if Slots(ops, 0).1 then StripLines(Slots(ops, 0).0, lines) else lines
  }

  function FusedLines(ops: seq<OpCode>, lines: seq<nat>): (r: seq<nat>)
    requires |ops| == |lines|
    ensures |r| == |Round(ops).0|
  {
    PassParallel(ops, lines);
    FuseSize(PeepholePass(ops).0);
    KeptLinesSize(FusePairs(PeepholePass(ops).0).0, PassLines(ops, lines), |PassLines(ops, lines)|);
    StripLeavesNoNop(FusePairs(PeepholePass(ops).0).0);
    StripLines(FusePairs(PeepholePass(ops).0).0, PassLines(ops, lines))
  }

  function RoundsLines(ops: seq<OpCode>, lines: seq<nat>, n: nat): (r: seq<nat>)
    requires |ops| == |lines|
    ensures |r| == |Rounds(ops, n)|
    decreases n
  {
    if n == 0 then lines
    else if Round(ops).1 then RoundsLines(Round(ops).0, FusedLines(ops, lines), n - 1)
    else FusedLines(ops, lines)
  }

  lemma {:induction false} KeptLinesSize(ops: seq<OpCode>, lines: seq<nat>, n: nat)
    requires n <= |ops| == |lines|
    ensures |KeptLines(ops, lines, n)| == Kept(ops, n)
  {
    if n > 0 { KeptLinesSize(ops, lines, n - 1); }
  }

  lemma FuseSize(ops: seq<OpCode>)
    ensures |FusePairs(ops).0| == |ops|
  {
  }

  lemma PassParallel(ops: seq<OpCode>, lines: seq<nat>)
    requires |ops| == |lines|
    ensures |PassLines(ops, lines)| == |PeepholePass(ops).0|
  {
    KeptLinesSize(Slots(ops, 0).0, lines, |ops|);
    StripLeavesNoNop(Slots(ops, 0).0);
  }

  /** Every instruction that is kept keeps its own line. */
  lemma {:induction false} KeptLineAt(ops: seq<OpCode>, lines: seq<nat>, n: nat, i: nat)
    requires i < n <= |ops| == |lines| && !ops[i].Nop?
    ensures Kept(ops, i) < |KeptLines(ops, lines, n)|
    ensures KeptLines(ops, lines, n)[Kept(ops, i)] == lines[i]
  {
    KeptLinesSize(ops, lines, n - 1);
    if i < n - 1 { KeptLineAt(ops, lines, n - 1, i); }
  }

  // ── nothing to strip ──

  lemma {:induction false} KeptAll(ops: seq<OpCode>, n: nat)
    requires n <= |ops| && Kept(ops, n) == n
    ensures forall k | 0 <= k < n :: !ops[k].Nop?
    ensures forall k | 0 <= k <= n :: Kept(ops, k) == k
  {
    if n > 0 { KeptAll(ops, n - 1); }
  }

  lemma {:induction false} SqueezeAll(ops: seq<OpCode>, lines: seq<nat>, n: nat, f: seq<nat>)
    requires n <= |ops| == |lines| && forall k | 0 <= k < n :: !ops[k].Nop? && MapOp(ops[k], f) == ops[k]
    ensures Squeeze(ops, n, f) == ops[..n] && KeptLines(ops, lines, n) == lines[..n]
  {
    if n > 0 { SqueezeAll(ops, lines, n - 1, f); }
  }

  lemma StripNothing(ops: seq<OpCode>, lines: seq<nat>)
    requires Kept(ops, |ops|) == |ops| == |lines| && InRange(ops)
    ensures Strip(ops) == ops && StripLines(ops, lines) == lines
  {
    var f := Forward(ops);
    KeptAll(ops, |ops|);
    forall k | 0 <= k < |ops| ensures MapOp(ops[k], f) == ops[k] {
      forall t: nat | Targets(ops[k], t) ensures At(f, t) == t { ForwardAt(ops, t); }
      UnmovedOp(ops[k], f);
    }
    SqueezeAll(ops, lines, |ops|, f);
  }

  // ── lines and targets under expansion ──

  function Repeat(line: nat, n: nat): (r: seq<nat>)
    ensures |r| == n
  {
    seq(n, k => line)
  }

  /** Every instruction of an expansion has the line of the superinstruction. */
  function SpreadLines(ops: seq<OpCode>, lines: seq<nat>, n: nat): (r: seq<nat>)
    requires n <= |ops| == |lines|
    ensures |r| == Unfusing.Offset(ops, n)
  {
    if n == 0 then []
    else SpreadLines(ops, lines, n - 1) + Repeat(lines[n - 1], |Unfusing.Expand(ops[n - 1])|)
  }

  /** The targets instructions carry once nothing is fused. */
  function Remap(op: OpCode, f: seq<nat>): (r: OpCode)
    ensures !Unfusing.IsFused(op) ==> r == MapOp(op, f)
  {
    match op
    case Jump(t) => Jump(At(f, t))
    case JumpIf(w, t) => JumpIf(w, At(f, t))
    case CatchStart(t) => CatchStart(At(f, t))
    case Loop(LoopEnter(c, b)) => Loop(LoopEnter(At(f, c), At(f, b)))
    case Loop(ForeachStart(i, n, e)) => Loop(ForeachStart(i, At(f, n), At(f, e)))
    case Loop(ForeachNext(i, b)) => Loop(ForeachNext(i, At(f, b)))
    case _ => op
  }

  lemma {:induction false} NothingSpread(ops: seq<OpCode>, lines: seq<nat>, n: nat)
    requires n <= |ops| == |lines| && forall k | 0 <= k < |ops| :: !Unfusing.IsFused(ops[k])
    ensures Unfusing.Offset(ops, n) == n && Unfusing.Spread(ops, n) == ops[..n]
        && SpreadLines(ops, lines, n) == lines[..n]
  {
    hide Unfusing.Expand;
    if n > 0 {
      NothingSpread(ops, lines, n - 1);
      Unfusing.ExpandsFused(ops[n - 1]);
    }
  }

  /** A unit without superinstructions is its own expansion. */
  lemma NothingToUnfuse(ops: seq<OpCode>, lines: seq<nat>)
    requires |ops| == |lines| && InRange(ops) && forall k | 0 <= k < |ops| :: !Unfusing.IsFused(ops[k])
    ensures Unfusing.Unfused(ops) == ops && SpreadLines(ops, lines, |ops|) == lines
  {
    var f := Unfusing.Offsets(ops);
    NothingSpread(ops, lines, |ops|);
    forall i | 0 <= i <= |ops| ensures f[i] == i { NothingSpread(ops, lines, i); }
    forall k | 0 <= k < |ops| ensures MapOp(ops[k], f) == ops[k] { UnmovedOp(ops[k], f); }
  }

  lemma UnfusedIs(ops: seq<OpCode>)
    ensures Unfusing.Unfused(ops) == MapAll(Unfusing.Spread(ops, |ops|), Unfusing.Offsets(ops))
  {
  }

  // ── the buffer ──

  /** A jump with its target filled in. */
  function Patched(op: OpCode, target: nat): OpCode {
    match op
    case Jump(_) => Jump(target)
    case JumpIf(want, _) => JumpIf(want, target)
    case CatchStart(_) => CatchStart(target)
    case _ => op
  }

  lemma CompactStart(was: seq<OpCode>, f: seq<nat>, lines: seq<nat>)
    requires |was| == |lines|
    ensures Kept(was, 0) == 0 && Squeeze(was, 0, f) == [] && KeptLines(was, lines, 0) == []
  {
  }

  lemma CompactStep(was: seq<OpCode>, f: seq<nat>, lines: seq<nat>, i: nat)
    requires i < |was| == |lines|
    ensures MapOp(was[i], f).Nop? == was[i].Nop?
    ensures Kept(was, i + 1) == Kept(was, i) + (if was[i].Nop? then 0 else 1) <= i + 1
    ensures Squeeze(was, i + 1, f) == Squeeze(was, i, f) + (if was[i].Nop? then [] else [MapOp(was[i], f)])
    ensures KeptLines(was, lines, i + 1) == KeptLines(was, lines, i) + (if was[i].Nop? then [] else [lines[i]])
  {
    MapKeepsRole(was[i], f);
  }

  lemma SpreadNone(ops: seq<OpCode>, lines: seq<nat>)
    requires |ops| == |lines|
    ensures Unfusing.Spread(ops, 0) == [] && SpreadLines(ops, lines, 0) == []
  {
  }

  lemma SpreadStep(ops: seq<OpCode>, lines: seq<nat>, i: nat)
    requires i < |ops| == |lines|
    ensures var e := Unfusing.Expand(ops[i]);
      && Unfusing.Spread(ops, i + 1) == Unfusing.Spread(ops, i) + e
      && SpreadLines(ops, lines, i + 1) == SpreadLines(ops, lines, i) + Repeat(lines[i], |e|)
  {
    hide Unfusing.Expand;
  }

  class ByteCode {
    var ops: seq<OpCode>
    var lineMap: seq<nat>

    predicate Valid() reads this { |ops| == |lineMap| }

    constructor ()
      ensures Valid() && ops == [] && lineMap == []
    {
      ops, lineMap := [], [];
    }

    method Emit(op: OpCode, line: nat) returns (idx: nat)
      requires Valid()
      modifies this
      ensures Valid() && idx == |old(ops)|
      ensures ops == old(ops) + [op] && lineMap == old(lineMap) + [line]
    {
      idx := |ops|;
      ops, lineMap := ops + [op], lineMap + [line];
    }

    method TruncateOps(len: nat)
      requires Valid()
      modifies this
      ensures Valid()
      ensures len <= |old(ops)| ==> ops == old(ops)[..len] && lineMap == old(lineMap)[..len]
      ensures len > |old(ops)| ==> ops == old(ops) && lineMap == old(lineMap)
    {
      if len < |ops| { ops, lineMap := ops[..len], lineMap[..len]; }
    }

    method PatchJump(idx: nat, target: nat)
      requires Valid() && idx < |ops| && (ops[idx].Jump? || ops[idx].JumpIf? || ops[idx].CatchStart?)
      modifies this`ops
      ensures Valid() && ops == old(ops)[idx := Patched(old(ops[idx]), target)]
    {
      match ops[idx] {
        case Jump(_) => ops := ops[idx := Jump(target)];
        case JumpIf(want, _) => ops := ops[idx := JumpIf(want, target)];
        case CatchStart(_) => ops := ops[idx := CatchStart(target)];
      }
    }

    method PatchLoop(idx: nat, cont: nat, brk: nat)
      requires Valid() && idx < |ops| && ops[idx].Loop? && ops[idx].l.LoopEnter?
      modifies this`ops
      ensures Valid() && ops == old(ops)[idx := Loop(LoopEnter(cont, brk))]
    {
      ops := ops[idx := Loop(LoopEnter(cont, brk))];
    }

    method PatchForeachStart(idx: nat, next: nat, end: nat)
      requires Valid() && idx < |ops| && ops[idx].Loop? && ops[idx].l.ForeachStart?
      modifies this`ops
      ensures Valid() && ops == old(ops)[idx := Loop(ForeachStart(old(ops[idx]).l.info, next, end))]
    {
      ops := ops[idx := Loop(ForeachStart(ops[idx].l.info, next, end))];
    }

    /** Which indices are targets. */
    method CollectJumpTargets() returns (targets: seq<bool>)
      ensures targets == CollectTargets(ops)
    {
      targets := seq(|ops| + 1, _ => false);
      var k := 0;
      while k < |ops|
        invariant 0 <= k <= |ops| && |targets| == |ops| + 1
        invariant forall t: nat | t <= |ops| :: targets[t] == TargetedBy(ops, k, t)
      {
        ghost var was := targets;
        targets := MarkTargets(ops[k], targets);
        forall t: nat | t <= |ops| ensures targets[t] == TargetedBy(ops, k + 1, t) {
          assert targets[t] == (was[t] || Targets(ops[k], t));
        }
        k := k + 1;
      }
    }

    static method MarkTarget(t: nat, targets: seq<bool>) returns (r: seq<bool>)
      ensures |r| == |targets| && forall k: nat | k < |r| :: r[k] == (targets[k] || k == t)
    {
      r := if t < |targets| then targets[t := true] else targets;
    }

    static method MarkTargets(op: OpCode, targets: seq<bool>) returns (r: seq<bool>)
      ensures |r| == |targets| && forall k: nat | k < |r| :: r[k] == (targets[k] || Targets(op, k))
    {
      r := targets;
      match op
      case Jump(t) => r := MarkTarget(t, r);
      case JumpIf(_, t) => r := MarkTarget(t, r);
      case CatchStart(t) => r := MarkTarget(t, r);
      case Loop(LoopEnter(c, b)) => r := MarkTarget(c, r); r := MarkTarget(b, r);
      case Loop(ForeachStart(_, n, e)) => r := MarkTarget(n, r); r := MarkTarget(e, r);
      case Loop(ForeachNext(_, b)) => r := MarkTarget(b, r);
      case Super(ForeachNextClose(_, b)) => r := MarkTarget(b, r);
      case Super(CmpRRJump(_, _, _, _, t)) => r := MarkTarget(t, r);
      case Super(CmpRIJump(_, _, _, _, t)) => r := MarkTarget(t, r);
      case Super(ForNextIncr(_, _, _, t)) => r := MarkTarget(t, r);
      case _ =>
    }

    /** Old index to new: the number of kept instructions before it, found as
        the new index of the first kept one at or after it. */
    method ForwardTable() returns (f: seq<nat>)
      ensures f == Forward(ops)
    {
      hide Kept;
      var newIndex, offset := NewIndexes();
      f := FillBack(newIndex, offset);
    }

    /** The new index of every kept instruction. */
    method NewIndexes() returns (newIndex: seq<nat>, offset: nat)
      ensures |newIndex| == |ops| && offset == Kept(ops, |ops|)
      ensures forall k | 0 <= k < |ops| :: newIndex[k] == Kept(ops, k)
    {
      newIndex, offset := [], 0;
      for i := 0 to |ops|
        invariant |newIndex| == i && offset == Kept(ops, i)
        invariant forall k | 0 <= k < i :: newIndex[k] == Kept(ops, k)
      {
        newIndex := newIndex + [offset];
        if !ops[i].Nop? { offset := offset + 1; }
      }
    }

    /** A no-op goes where the next kept instruction goes. */
    method FillBack(newIndex: seq<nat>, offset: nat) returns (f: seq<nat>)
      requires |newIndex| == |ops| && offset == Kept(ops, |ops|)
      requires forall k | 0 <= k < |ops| :: newIndex[k] == Kept(ops, k)
      ensures f == Forward(ops)
    {
      f := seq(|ops| + 1, _ => offset);
      var next, i := offset, |ops|;
      while i > 0
        invariant 0 <= i <= |ops| && |f| == |ops| + 1 && next == Kept(ops, i)
        invariant forall k | i <= k <= |ops| :: f[k] == Kept(ops, k)
      {
        i := i - 1;
        if !ops[i].Nop? { next := newIndex[i]; }
        f := f[i := next];
      }
    }

    method RemapTargets(f: seq<nat>)
      modifies this`ops
      ensures ops == MapAll(old(ops), f)
    {
      var k := 0;
      while k < |ops|
        invariant 0 <= k <= |ops| == |old(ops)|
        invariant forall j | 0 <= j < k :: ops[j] == MapOp(old(ops)[j], f)
        invariant forall j | k <= j < |ops| :: ops[j] == old(ops)[j]
      {
        ops := ops[k := MapOp(ops[k], f)];
        k := k + 1;
      }
    }

    method Compact(newLen: nat, ghost was: seq<OpCode>, ghost f: seq<nat>)
      requires Valid() && ops == MapAll(was, f) && newLen == Kept(was, |was|)
      modifies this
      ensures Valid()
      ensures ops == Squeeze(was, |was|, f) && lineMap == KeptLines(was, old(lineMap), |was|)
    {
      hide MapOp, Squeeze, KeptLines, Kept;
      var read, write := 0, 0;
      CompactStart(was, f, lineMap);
      while read < |ops|
        invariant 0 <= write <= read <= |ops| == |was| == |lineMap| == |old(lineMap)|
        invariant write == Kept(was, read)
        invariant ops[..write] == Squeeze(was, read, f) && lineMap[..write] == KeptLines(was, old(lineMap), read)
        invariant forall j | read <= j < |ops| :: ops[j] == MapOp(was[j], f) && lineMap[j] == old(lineMap)[j]
      {
        CompactStep(was, f, old(lineMap), read);
        if !ops[read].Nop? {
          ops, lineMap := ops[write := ops[read]], lineMap[write := lineMap[read]];
          assert ops[..write + 1] == ops[..write] + [MapOp(was[read], f)];
          assert lineMap[..write + 1] == lineMap[..write] + [old(lineMap)[read]];
          write := write + 1;
        }
        read := read + 1;
      }
      ops, lineMap := ops[..newLen], lineMap[..newLen];
    }

    /** Remove every no-op in place: renumber, retarget, compact. */
    method StripNops()
      requires Valid() && InRange(ops)
      modifies this
      ensures Valid()
      ensures ops == Strip(old(ops)) && lineMap == StripLines(old(ops), old(lineMap))
    {
      ghost var was := ops;
      var f := ForwardTable();
      var newLen := f[|ops|];
      if newLen == |ops| {
        StripNothing(ops, lineMap);
        return;
      }
      RemapTargets(f);
      Compact(newLen, was, f);
    }

    // ── the passes ──

    method FuseSlots() returns (fused: bool)
      requires Valid()
      modifies this`ops
      ensures Valid() && (ops, fused) == Slots(old(ops), 0)
    {
      fused := false;
      var i := 0;
      while i + 2 < |ops|
        invariant |ops| == |old(ops)|
        invariant Slots(old(ops), 0).0 == Slots(ops, i).0
        invariant Slots(old(ops), 0).1 == (fused || Slots(ops, i).1)
        decreases |ops| - i
      {
        var v := SlotRule(ops[i], ops[i + 1], ops[i + 2]);
        if v.Some? {
          assert Rewritten(ops, i, 3, v.value) == ops[i := v.value][i + 1 := Nop][i + 2 := Nop];
          ops := ops[i := v.value][i + 1 := Nop][i + 2 := Nop];
          fused := true;
          i := i + 3;
        } else {
          i := i + 1;
        }
      }
    }

    method FoldConstants() returns (changed: bool)
      requires Valid()
      modifies this`ops
      ensures Valid() && (ops, changed) == Folds(old(ops), 0)
    {
      changed := false;
      var i := 0;
      while i + 2 < |ops|
        invariant |ops| == |old(ops)|
        invariant Folds(old(ops), 0).0 == Folds(ops, i).0
        invariant Folds(old(ops), 0).1 == (changed || Folds(ops, i).1)
        decreases |ops| - i, if i + 1 < |ops| && ops[i + 1].Nop? then 0 else 1
      {
        var v := FoldRule(ops[i], ops[i + 1], ops[i + 2]);
        if v.Some? {
          assert Rewritten(ops, i, 3, v.value) == ops[i := v.value][i + 1 := Nop][i + 2 := Nop];
          ops := ops[i := v.value][i + 1 := Nop][i + 2 := Nop];
          changed := true;
          continue;
        }
        i := i + 1;
      }
    }

    method RewritePairs() returns (changed: bool)
      requires Valid()
      modifies this`ops
      ensures Valid() && (ops, changed) == Pairs(old(ops), 0)
    {
      changed := false;
      var i := 0;
      while i + 1 < |ops|
        invariant |ops| == |old(ops)|
        invariant Pairs(old(ops), 0).0 == Pairs(ops, i).0
        invariant Pairs(old(ops), 0).1 == (changed || Pairs(ops, i).1)
        decreases |ops| - i
      {
        var p := PairRule(ops[i], ops[i + 1]);
        if p.None? {
          i := i + 1;
        } else {
          assert p.value.1 == 2 ==> Rewritten(ops, i, 2, p.value.0) == ops[i := p.value.0][i + 1 := Nop];
          assert p.value.1 == 1 ==> Rewritten(ops, i, 1, p.value.0) == ops[i := p.value.0];
          ops := ops[i := p.value.0];
          if p.value.1 == 2 { ops := ops[i + 1 := Nop]; }
          changed := true;
          i := i + p.value.1;
        }
      }
    }

    method PeepholeOnce() returns (changed: bool)
      requires Valid() && InRange(ops)
      modifies this
      ensures Valid() && (ops, changed) == PeepholePass(old(ops))
      ensures lineMap == PassLines(old(ops), old(lineMap))
    {
      hide Slots, Folds, Pairs, Strip, StripLines, InRange;
      SlotsInRange(ops, 0);
      var fused := FuseSlots();
      if fused { StripNops(); }
      if |ops| < 2 { return false; }
      var folded := FoldConstants();
      var paired := RewritePairs();
      changed := folded || paired;
    }

    /** One target through every retargeting, in order. */
    static method Retarget(rt: seq<(nat, nat)>, t: nat) returns (r: nat)
      ensures r == Chase(rt, t)
    {
      r := t;
      var k := 0;
      while k < |rt|
        invariant 0 <= k <= |rt| && r == Chase(rt[..k], t)
      {
        assert rt[..k + 1][..k] == rt[..k];
        if r == rt[k].0 { r := rt[k].1; }
        k := k + 1;
      }
      assert rt[..k] == rt;
    }

    static method RetargetLoop(l: LoopOp, rt: seq<(nat, nat)>, ghost n: nat) returns (r: LoopOp)
      requires forall t: nat | LoopTargets(l, t) :: t <= n
      ensures r == MapLoopOp(l, Table(rt, n))
    {
      r := l;
      match l
      case LoopEnter(c, b) =>
        assert LoopTargets(l, c) && LoopTargets(l, b);
        var x := Retarget(rt, c);
        var y := Retarget(rt, b);
        r := LoopEnter(x, y);
      case ForeachStart(i, s, e) =>
        assert LoopTargets(l, s) && LoopTargets(l, e);
        var x := Retarget(rt, s);
        var y := Retarget(rt, e);
        r := ForeachStart(i, x, y);
      case ForeachNext(i, b) =>
        assert LoopTargets(l, b);
        var x := Retarget(rt, b);
        r := ForeachNext(i, x);
      case _ =>
    }

    static method RetargetFused(g: FusedOp, rt: seq<(nat, nat)>, ghost n: nat) returns (r: FusedOp)
      requires forall t: nat | FusedTargets(g, t) :: t <= n
      ensures r == MapFused(g, Table(rt, n))
    {
      r := g;
      var x: nat;
      match g
      case ForeachNextClose(i, b) => assert FusedTargets(g, b); x := Retarget(rt, b); r := ForeachNextClose(i, x);
      case CmpRRJump(a, b, cc, w, t) => assert FusedTargets(g, t); x := Retarget(rt, t); r := CmpRRJump(a, b, cc, w, x);
      case CmpRIJump(a, k, cc, w, t) => assert FusedTargets(g, t); x := Retarget(rt, t); r := CmpRIJump(a, k, cc, w, x);
      case ForNextIncr(s, y, k, t) => assert FusedTargets(g, t); x := Retarget(rt, t); r := ForNextIncr(s, y, k, x);
      case _ =>
    }

    static method RetargetOp(op: OpCode, rt: seq<(nat, nat)>, ghost n: nat) returns (r: OpCode)
      requires forall t: nat | Targets(op, t) :: t <= n
      ensures r == MapOp(op, Table(rt, n))
    {
      hide LoopTargets, FusedTargets, MapLoopOp, MapFused;
      r := op;
      var x: nat;
      match op
      case Jump(t) => assert Targets(op, t); x := Retarget(rt, t); r := Jump(x);
      case JumpIf(w, t) => assert Targets(op, t); x := Retarget(rt, t); r := JumpIf(w, x);
      case CatchStart(t) => assert Targets(op, t); x := Retarget(rt, t); r := CatchStart(x);
      case Loop(l) =>
        assert forall t: nat :: LoopTargets(l, t) ==> Targets(op, t);
        var m := RetargetLoop(l, rt, n);
        r := Loop(m);
      case Super(g) =>
        assert forall t: nat :: FusedTargets(g, t) ==> Targets(op, t);
        var m := RetargetFused(g, rt, n);
        r := Super(m);
      case _ =>
    }

    method ApplyRetargets(rt: seq<(nat, nat)>)
      requires InRange(ops)
      modifies this`ops
      ensures ops == MapAll(old(ops), Table(rt, |old(ops)|))
    {
      var k := 0;
      while k < |ops|
        invariant 0 <= k <= |ops| == |old(ops)|
        invariant forall j | 0 <= j < k :: ops[j] == MapOp(old(ops)[j], Table(rt, |ops|))
        invariant forall j | k <= j < |ops| :: ops[j] == old(ops)[j]
      {
        var op := RetargetOp(ops[k], rt, |ops|);
        ops := ops[k := op];
        k := k + 1;
      }
    }

    /** A window becomes its replacement and no-ops. */
    method RewriteWindow(i: nat, w: nat, v: OpCode)
      requires 1 <= w && i + w <= |ops|
      modifies this`ops
      ensures ops == Rewritten(old(ops), i, w, v)
    {
      ops := ops[i := v];
      var k := i + 1;
      while k < i + w
        invariant i < k <= i + w <= |ops| == |old(ops)|
        invariant forall j | 0 <= j < |ops| :: ops[j] == if j == i then v else if i < j < k then Nop else old(ops)[j]
      {
        ops := ops[k := Nop];
        k := k + 1;
      }
    }

    method FuseScan(targets: seq<bool>) returns (rt: seq<(nat, nat)>, changed: bool)
      requires Valid()
      modifies this`ops
      ensures Valid() && Fusion(ops, rt, changed) == FuseFrom(old(ops), targets, [], 0)
    {
      hide FuseRule, TrampolineRule, Rewritten;
      rt, changed := [], false;
      var i := 0;
      while i + 1 < |ops|
        invariant |ops| == |old(ops)|
        invariant var r, r0 := FuseFrom(ops, targets, rt, i), FuseFrom(old(ops), targets, [], 0);
                  r0 == r.(changed := changed || r.changed)
        decreases |ops| - i
      {
        var p := FuseRule(ops, targets, i);
        if p.None? {
          i := i + 1;
        } else {
          if TrampolineRule(ops, i).Some? { rt := rt + [(i + 1, i)]; }
          RewriteWindow(i, p.value.1, p.value.0);
          changed := true;
          i := i + p.value.1;
        }
      }
    }

    /** Fuse producer and consumer windows, then retarget what a fused jump
        swallowed. */
    method FuseOnce() returns (changed: bool)
      requires Valid() && InRange(ops)
      modifies this`ops
      ensures Valid() && (ops, changed) == FusePairs(old(ops))
    {
      hide FuseFrom, CollectTargets;
      if |ops| < 2 { return false; }
      var targets := CollectJumpTargets();
      ScanInRange(ops, targets, [], 0);
      var rt: seq<(nat, nat)>;
      rt, changed := FuseScan(targets);
      if rt != [] { ApplyRetargets(rt); }
    }

    /** The optimiser: rounds of folding, fusion and compaction, at most eight. */
    method Optimise()
      requires Valid() && InRange(ops)
      modifies this
      ensures Valid() && InRange(ops)
      ensures ops == Peephole(old(ops)) && lineMap == RoundsLines(old(ops), old(lineMap), 8)
    {
      hide PeepholePass, FusePairs, Round, Strip, StripLines, InRange, PassLines, FusedLines;
      var round := 0;
      while round < 8
        invariant 0 <= round <= 8 && Valid() && InRange(ops)
        invariant Peephole(old(ops)) == Rounds(ops, 8 - round)
        invariant RoundsLines(old(ops), old(lineMap), 8) == RoundsLines(ops, lineMap, 8 - round)
      {
        var changed := OneRound();
        round := round + 1;
        if !changed { break; }
      }
    }

    method OneRound() returns (changed: bool)
      requires Valid() && InRange(ops)
      modifies this
      ensures Valid() && InRange(ops)
      ensures (ops, changed) == Round(old(ops)) && lineMap == FusedLines(old(ops), old(lineMap))
    {
      hide PeepholePass, FusePairs, Strip, StripLines, InRange, PassLines;
      PassInRange(ops);
      FusePairsInRange(PeepholePass(ops).0);
      RoundInRange(ops);
      var folded := PeepholeOnce();
      var fused := FuseOnce();
      StripNops();
      changed := folded || fused;
    }

    method HasFusedOps() returns (found: bool)
      ensures found == exists k :: 0 <= k < |ops| && Unfusing.IsFused(ops[k])
    {
      found := false;
      for i := 0 to |ops|
        invariant found == exists k :: 0 <= k < i && Unfusing.IsFused(ops[k])
      {
        if Unfusing.IsFused(ops[i]) { found := true; }
      }
    }

    /** A copy in which every superinstruction is its window again. */
    method Unfuse() returns (out: ByteCode)
      requires Valid() && InRange(ops)
      ensures out.Valid() && fresh(out)
      ensures out.ops == Unfusing.Unfused(ops) && out.lineMap == SpreadLines(ops, lineMap, |ops|)
    {
      hide InRange, Unfusing.Expand, Remap, Unfusing.Unfused;
      out := new ByteCode();
      var fused := HasFusedOps();
      if !fused {
        NothingToUnfuse(ops, lineMap);
        out.ops, out.lineMap := ops, lineMap;
        return;
      }
      var table := SpreadInto(out);
      Unfusing.SpreadClean(ops, |ops|);
      out.RemapAll(table);
      assert Unfusing.Unfused(ops) == MapAll(Unfusing.Spread(ops, |ops|), table) by { UnfusedIs(ops); }
    }

    /** Append the expansions to `out`; where did each instruction go? */
    method SpreadInto(out: ByteCode) returns (table: seq<nat>)
      requires Valid() && out != this && out.ops == [] && out.lineMap == []
      modifies out
      ensures table == Unfusing.Offsets(ops)
      ensures out.ops == Unfusing.Spread(ops, |ops|) && out.lineMap == SpreadLines(ops, lineMap, |ops|)
    {
      hide Unfusing.Expand, Unfusing.Spread, SpreadLines, Unfusing.Offset;
      table := [];
      SpreadNone(ops, lineMap);
      for i := 0 to |ops|
        invariant |table| == i && forall k | 0 <= k < i :: table[k] == Unfusing.Offset(ops, k)
        invariant out.ops == Unfusing.Spread(ops, i) && out.lineMap == SpreadLines(ops, lineMap, i)
      {
        SpreadStep(ops, lineMap, i);
        table := table + [|out.ops|];
        var e := Unfusing.Expand(ops[i]);
        out.ops, out.lineMap := out.ops + e, out.lineMap + Repeat(lineMap[i], |e|);
      }
      table := table + [|out.ops|];
    }

    method RemapAll(table: seq<nat>)
      requires Valid() && forall k | 0 <= k < |ops| :: !Unfusing.IsFused(ops[k])
      modifies this`ops
      ensures Valid() && ops == MapAll(old(ops), table)
    {
      hide MapOp;
      for i := 0 to |ops|
        invariant Valid() && |ops| == |old(ops)|
        invariant forall k | 0 <= k < i :: ops[k] == MapOp(old(ops)[k], table)
        invariant forall k | i <= k < |ops| :: ops[k] == old(ops)[k]
      {
        ops := ops[i := Remap(ops[i], table)];
      }
    }
  }
}

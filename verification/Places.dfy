/** Where the pieces of a form's code lie in a unit. */
module Places {
  import opened Opcodes
  import opened Machine
  import opened Discipline
  import opened Syntax
  import opened Codegen

  predicate Placed(u: Code, at: int, code: seq<OpCode>) {
    0 <= at && at + |code| <= |u.ops| && u.ops[at..at + |code|] == code
  }

  lemma PlacedSplit(u: Code, at: nat, a: seq<OpCode>, b: seq<OpCode>)
    requires Placed(u, at, a + b)
    ensures Placed(u, at, a) && Placed(u, at + |a|, b)
  {
    var all := u.ops[at..at + |a + b|];
    assert all[..|a|] == u.ops[at..at + |a|];
    assert all[|a|..] == u.ops[at + |a|..at + |a| + |b|];
  }

  lemma PlacedAt(u: Code, at: nat, code: seq<OpCode>, k: nat)
    requires Placed(u, at, code) && k < |code|
    ensures at + k < |u.ops| && u.ops[at + k] == code[k]
  {
    assert u.ops[at..at + |code|][k] == u.ops[at + k];
  }

  // ── expressions and arms ──

  lemma BinaryPlaced(u: Code, at: nat, a: seq<OpCode>, b: seq<OpCode>, op: BinOp)
    requires Placed(u, at, a + b + [Bin(op)])
    ensures Placed(u, at, a) && Placed(u, at + |a|, b)
    ensures at + |a| + |b| < |u.ops| && u.ops[at + |a| + |b|] == Bin(op)
  {
    PlacedSplit(u, at, a + b, [Bin(op)]);
    PlacedSplit(u, at, a, b);
    PlacedAt(u, at + |a| + |b|, [Bin(op)], 0);
  }

  lemma ArmSize(test: seq<OpCode>, body: seq<OpCode>, rest: seq<OpCode>, at: nat)
    ensures |ArmCode(test, body, rest, at)| == |test| + |body| + 2 + |rest|
  {
  }

  lemma ArmPlaced(u: Code, at: nat, test: seq<OpCode>, body: seq<OpCode>, rest: seq<OpCode>)
    requires Placed(u, at, ArmCode(test, body, rest, at))
    ensures var here := at + |test| + |body| + 2;
      && Placed(u, at, test + [JumpIf(false, here)])
      && Placed(u, at + |test| + 1, body)
      && here - 1 < |u.ops| && u.ops[here - 1] == Jump(here + |rest|)
      && Placed(u, here, rest)
  {
    var here := at + |test| + |body| + 2;
    var a := test + [JumpIf(false, here)];
    PlacedSplit(u, at, a + body + [Jump(here + |rest|)], rest);
    PlacedSplit(u, at, a + body, [Jump(here + |rest|)]);
    PlacedSplit(u, at, a, body);
    PlacedAt(u, here - 1, [Jump(here + |rest|)], 0);
  }

  // ── loops ──

  lemma HeadSize(test: seq<OpCode>, body: seq<OpCode>, cont: nat, brk: nat)
    ensures |LoopHead(test, body, cont, brk)| == |test| + |body| + 4
  {
  }

  lemma HeadPlaced(u: Code, at: nat, test: seq<OpCode>, body: seq<OpCode>, cont: nat, brk: nat)
    requires Placed(u, at, LoopHead(test, body, cont, brk))
    ensures var mid := at + 1 + |test|; var end := mid + |body| + 1;
      && end + 1 < |u.ops| && u.ops[at] == Loop(LoopEnter(cont, brk))
      && Placed(u, at + 1, test + [JumpIf(false, brk)]) && Placed(u, mid + 1, body)
      && u.ops[end] == Pop && u.ops[end + 1] == Jump(cont)
  {
    var end := at + |test| + |body| + 2;
    var a, b, c := [Loop(LoopEnter(cont, brk))], test + [JumpIf(false, brk)], [Pop, Jump(cont)];
    assert a + test + [JumpIf(false, brk)] == a + b;
    PlacedSplit(u, at, a + b + body, c);
    PlacedSplit(u, at, a + b, body);
    PlacedSplit(u, at, a, b);
    hide Placed;
    PlacedAt(u, at, a, 0);
    PlacedAt(u, end, c, 0);
    PlacedAt(u, end, c, 1);
  }

  lemma TailPlaced(u: Code, end: nat)
    requires Placed(u, end, LoopTail())
    ensures end + 1 < |u.ops| && u.ops[end] == Loop(LoopExit) && u.ops[end + 1] == Push(Empty)
  {
    PlacedAt(u, end, LoopTail(), 0);
    PlacedAt(u, end, LoopTail(), 1);
  }

  lemma WhilePlaced(u: Code, at: nat, test: seq<OpCode>, body: seq<OpCode>)
    requires Placed(u, at, WhileCode(test, body, at))
    ensures var mid := at + 1 + |test|; var end := mid + |body| + 3;
      && end + 1 < |u.ops| && u.ops[at] == Loop(LoopEnter(at + 1, end))
      && Placed(u, at + 1, test + [JumpIf(false, end)]) && Placed(u, mid + 1, body)
      && u.ops[end - 2] == Pop && u.ops[end - 1] == Jump(at + 1)
      && u.ops[end] == Loop(LoopExit) && u.ops[end + 1] == Push(Empty)
  {
    hide LoopHead, LoopTail, Placed;
    var end := at + |test| + |body| + 4;
    HeadSize(test, body, at + 1, end);
    PlacedSplit(u, at, LoopHead(test, body, at + 1, end), LoopTail());
    HeadPlaced(u, at, test, body, at + 1, end);
    TailPlaced(u, end);
  }

  lemma NextPlaced(u: Code, tail: nat, next: seq<OpCode>, back: nat)
    requires Placed(u, tail, [Mark(NextMark)] + next + [Pop, Jump(back)])
    ensures var end := tail + |next| + 3;
      && end <= |u.ops| && u.ops[tail] == Mark(NextMark) && Placed(u, tail + 1, next)
      && u.ops[end - 2] == Pop && u.ops[end - 1] == Jump(back)
  {
    var end := tail + |next| + 3;
    var e, g := [Mark(NextMark)], [Pop, Jump(back)];
    PlacedSplit(u, tail, e + next, g);
    PlacedSplit(u, tail, e, next);
    PlacedAt(u, tail, e, 0);
    PlacedAt(u, end - 2, g, 0);
    PlacedAt(u, end - 2, g, 1);
  }

  /** The parts of a `for` from its loop's entry on, and where they lie. */
  datatype ForPlan = ForPlan(test: seq<OpCode>, body: seq<OpCode>, next: seq<OpCode>, tail: nat, end: nat)

  function PlanFor(f: Form, at: nat): ForPlan {
    var test := TestCode(TestOf(f), at + 1, false);
    var body := ScriptCode(BodyOf(f), at + |test| + 2, false);
    var tail := at + |test| + |body| + 4;
    var next := if f.For? then ScriptCode(f.next, tail + 1, true) else [];
    ForPlan(test, body, next, tail, tail + |next| + 3)
  }

  lemma ForSize(test: seq<OpCode>, body: seq<OpCode>, next: seq<OpCode>, at: nat)
    ensures |ForCode(test, body, next, at)| == |test| + |body| + |next| + 9
  {
  }

  lemma ForSplit(u: Code, at: nat, s: seq<OpCode>, loop: seq<OpCode>)
    requires Placed(u, at, [Mark(ExprMark)] + s + [SubEnd, Pop] + loop)
    ensures Placed(u, at, [Mark(ExprMark)] + s + [SubEnd])
    ensures var enter := at + |s| + 3; enter <= |u.ops| && u.ops[enter - 1] == Pop && Placed(u, enter, loop)
  {
    var a := [Mark(ExprMark)] + s;
    PlacedSplit(u, at, a + [SubEnd, Pop], loop);
    assert a + [SubEnd, Pop] == a + [SubEnd] + [Pop];
    PlacedSplit(u, at, a + [SubEnd], [Pop]);
    PlacedAt(u, at + |a| + 1, [Pop], 0);
  }

  lemma ForPlaced(u: Code, at: nat, test: seq<OpCode>, body: seq<OpCode>, next: seq<OpCode>)
    requires Placed(u, at, ForCode(test, body, next, at))
    ensures var tail := at + |test| + |body| + 4; var end := tail + |next| + 3;
      && end + 1 < |u.ops| && u.ops[at] == Loop(LoopEnter(tail, end))
      && Placed(u, at + 1, test + [JumpIf(false, end)]) && Placed(u, at + |test| + 2, body)
      && u.ops[tail - 2] == Pop && u.ops[tail - 1] == Jump(tail)
      && u.ops[tail] == Mark(NextMark) && Placed(u, tail + 1, next)
      && u.ops[end - 2] == Pop && u.ops[end - 1] == Jump(at + 1)
      && u.ops[end] == Loop(LoopExit) && u.ops[end + 1] == Push(Empty)
  {
    hide LoopHead, LoopTail, Placed;
    var tail := at + |test| + |body| + 4;
    var end := tail + |next| + 3;
    var head, mid := LoopHead(test, body, tail, end), [Mark(NextMark)] + next + [Pop, Jump(at + 1)];
    HeadSize(test, body, tail, end);
    PlacedSplit(u, at, head + mid, LoopTail());
    PlacedSplit(u, at, head, mid);
    HeadPlaced(u, at, test, body, tail, end);
    NextPlaced(u, tail, next, at + 1);
    TailPlaced(u, end);
  }

  lemma EachSize(info: nat, shape: ForeachInfo, body: seq<OpCode>, at: nat)
    ensures |EachCode(info, shape, body, at)| == |body| + 6
  {
  }

  lemma EachPlaced(u: Code, at: nat, info: nat, shape: ForeachInfo, body: seq<OpCode>)
    requires Placed(u, at, EachCode(info, shape, body, at))
    ensures var tail := at + |body| + 4;
      && tail + 1 < |u.ops| && u.ops[at] == Loop(ForeachStart(info, tail, tail + 1))
      && u.ops[at + 1] == BodyMarkFor(shape.framed) && Placed(u, at + 2, body)
      && u.ops[tail - 2] == (if shape.lmap then Loop(ForeachCollect) else Pop) && u.ops[tail - 1] == Jump(tail)
      && u.ops[tail] == Loop(ForeachNext(info, at + 1)) && u.ops[tail + 1] == Loop(ForeachEnd)
  {
    hide Placed;
    var tail := at + |body| + 4;
    var a := [Loop(ForeachStart(info, tail, tail + 1)), BodyMarkFor(shape.framed)];
    var c := [if shape.lmap then Loop(ForeachCollect) else Pop, Jump(tail), Loop(ForeachNext(info, at + 1)),
        Loop(ForeachEnd)];
    PlacedSplit(u, at, a + body, c);
    PlacedSplit(u, at, a, body);
    PlacedAt(u, at, a, 0);
    PlacedAt(u, at, a, 1);
    forall k: nat | k < 4 ensures tail - 2 + k < |u.ops| && u.ops[tail - 2 + k] == c[k] { PlacedAt(u, tail - 2, c, k); }
    assert u.ops[tail - 2 + 0] == c[0] && u.ops[tail - 2 + 1] == c[1] && u.ops[tail - 2 + 2] == c[2]
        && u.ops[tail - 2 + 3] == c[3];
  }
}

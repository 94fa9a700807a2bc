/** Two region stacks that drift apart: that of a fused unit, whose loop-closing
    superinstructions bring it back to the loop's entry, and that of its
    expansion, which leaves regions behind.  Signals still see the same. */
module Apart {
  import opened Opcodes
  import opened Machine
  import opened Levels

  /** A pass of a fused iteration may be one region deeper than the expansion's. */
  function Slack(ops: seq<OpCode>, l: LoopFrame): nat {
    if OpAt(ops, l.cont).Super? && OpAt(ops, l.cont).f.ForeachNextClose?
        && OpAt(ops, l.brk) == Loop(ForeachEnd) then 1 else 0
  }

  /** No next script is open; level by level the expansion has at least as many
      regions, but for the slack. */
  predicate Loose(ops: seq<OpCode>, a: List<Region>, la: List<LoopFrame>, b: List<Region>, lb: List<LoopFrame>)
    decreases la
  {
    match la
    case Nil => lb.Nil?
    case Cons(l, rest) =>
      lb.Cons? &&
      var m, n := l.at.bodiesLen, lb.head.at.bodiesLen;
      && m <= Depth(a) && n <= Depth(b) && !NextAbove(a, m) && !NextAbove(b, n)
      && Depth(a) - m <= Depth(b) - n + Slack(ops, l)
      && Loose(ops, Truncate(a, m), rest, Truncate(b, n), lb.tail)
  }

  /** The top `k` regions are of the same kinds. */
  predicate SameTop(a: List<Region>, b: List<Region>, k: nat) {
    k == 0 || (a.Cons? && b.Cons? && a.head.Next? == b.head.Next? && SameTop(a.tail, b.tail, k - 1))
  }

  /** The `k`th region from the top is a next script's. */
  predicate NextAt(a: List<Region>,
          k: nat) { a.Cons? && if k <= 1 then k == 1 && a.head.Next? else NextAt(a.tail, k - 1) }

  /** With `k > 0` a next script is open, `k` regions deep, and everything since
      is the same on both sides. */
  predicate Apt(ops: seq<OpCode>, k: nat, a: List<Region>, la: List<LoopFrame>, b: List<Region>, lb: List<LoopFrame>)
    decreases la
  {
    if k == 0 then Loose(ops, a, la, b, lb)
    else
      && k <= Depth(a) && k <= Depth(b) && SameTop(a, b, k) && la.Cons? && lb.Cons?
      && var m, n := la.head.at.bodiesLen, lb.head.at.bodiesLen;
         if m > Depth(a) - k then
           && m <= Depth(a) && n <= Depth(b) && Depth(a) - m == Depth(b) - n
           && Apt(ops, k - (Depth(a) - m), Truncate(a, m), la.tail, Truncate(b, n), lb.tail)
         else
           NextAt(a, k) && Loose(ops, Truncate(a, Depth(a) - k), la, Truncate(b, Depth(b) - k), lb)
  }

  // ── lists ──

  lemma {:induction false} SameTopLess(a: List<Region>, b: List<Region>, j: nat, k: nat)
    requires SameTop(a, b, k) && j <= k
    ensures SameTop(a, b, j)
  {
    if j > 0 { SameTopLess(a.tail, b.tail, j - 1, k - 1); }
  }

  lemma {:induction false} SameTopNext(a: List<Region>, b: List<Region>, m: nat, n: nat)
    requires m <= Depth(a) && n <= Depth(b) && Depth(a) - m == Depth(b) - n && SameTop(a, b, Depth(a) - m)
    ensures NextAbove(a, m) == NextAbove(b, n)
  {
    if Depth(a) > m { SameTopNext(a.tail, b.tail, m, n); }
  }

  lemma {:induction false} NextAtAbove(a: List<Region>, k: nat, m: nat)
    requires NextAt(a, k) && k <= Depth(a) && m <= Depth(a) - k
    ensures NextAbove(a, m)
    decreases k
  {
    if k > 1 { NextAtAbove(a.tail, k - 1, m); }
  }

  lemma {:induction false} NextAtSame(a: List<Region>, b: List<Region>, k: nat)
    requires NextAt(a, k) && SameTop(a, b, k)
    ensures NextAt(b, k)
    decreases k
  {
    if k > 1 { NextAtSame(a.tail, b.tail, k - 1); }
  }

  /** Nothing next above `m`, nor above `n` below that. */
  lemma {:induction false} NoNextJoin(a: List<Region>, m: nat, n: nat)
    requires n <= m <= Depth(a) && !NextAbove(a, m) && !NextAbove(Truncate(a, m), n)
    ensures !NextAbove(a, n)
  {
    if Depth(a) > m { NoNextJoin(a.tail, m, n); }
  }

  lemma {:induction false} NextAtTruncated(a: List<Region>, m: nat, j: nat)
    requires m <= Depth(a) && 0 < j <= m && NextAt(Truncate(a, m), j)
    ensures NextAt(a, j + (Depth(a) - m))
    decreases a
  {
    if Depth(a) > m { NextAtTruncated(a.tail, m, j); }
  }

  // ── opening and closing regions ──

  lemma OpenLoose(ops: seq<OpCode>, a: List<Region>, la: List<LoopFrame>, b: List<Region>, lb: List<LoopFrame>,
          r: Region, q: Region)
    requires Loose(ops, a, la, b, lb) && !r.Next? && !q.Next?
    ensures Loose(ops, Cons(r, a), la, Cons(q, b), lb)
  {
  }

  lemma OpenApt(ops: seq<OpCode>, k: nat, a: List<Region>, la: List<LoopFrame>, b: List<Region>, lb: List<LoopFrame>,
          r: Region, q: Region) returns (j: nat)
    requires Apt(ops, k, a, la, b, lb) && r.Next? == q.Next?
    ensures Apt(ops, j, Cons(r, a), la, Cons(q, b), lb)
  {
    if k > 0 {
      j := k + 1;
    } else if r.Next? && la.Cons? {
      j := 1;
      assert Truncate(Cons(r, a), Depth(a)) == a && Truncate(Cons(q, b), Depth(b)) == b
          by { TruncateWhole(a); TruncateWhole(b); }
    } else {
      j := 0;
      if la.Cons? { OpenLoose(ops, a, la, b, lb, r, q); }
    }
  }

  lemma TruncateWhole<T>(l: List<T>)
    ensures Truncate(l, Depth(l)) == l
  {
  }

  function Shut(a: List<Region>): List<Region> { if a.Nil? then Nil else a.tail }

  lemma ShutApt(ops: seq<OpCode>, k: nat, a: List<Region>, la: List<LoopFrame>, b: List<Region>, lb: List<LoopFrame>)
    returns (j: nat)
    requires Apt(ops, k, a, la, b, lb)
    requires la.Cons? ==> Depth(a) > la.head.at.bodiesLen + Slack(ops, la.head)
    ensures Apt(ops, j, Shut(a), la, Shut(b), lb)
  {
    if k == 1 {
      j := 0;
      assert Truncate(a, Depth(a) - 1) == a.tail && Truncate(b, Depth(b) - 1) == b.tail
          by { TruncateWhole(a.tail); TruncateWhole(b.tail); }
    } else if k > 1 {
      j := k - 1;
    } else {
      j := 0;
    }
  }

  // ── loops ──

  lemma EnterApt(ops: seq<OpCode>, k: nat, a: List<Region>, la: List<LoopFrame>, b: List<Region>, lb: List<LoopFrame>,
          l: LoopFrame, m: LoopFrame)
    requires Apt(ops, k, a, la, b, lb) && l.at.bodiesLen == Depth(a) && m.at.bodiesLen == Depth(b)
    ensures Apt(ops, k, a, Cons(l, la), b, Cons(m, lb))
  {
    hide Exec;
    TruncateWhole(a);
    TruncateWhole(b);
    NothingAbove(a);
    NothingAbove(b);
  }

  lemma NothingAbove(a: List<Region>)
    ensures !NextAbove(a, Depth(a))
  {
  }

  lemma {:induction false} LeaveLoose(ops: seq<OpCode>, a: List<Region>, la: List<LoopFrame>, b: List<Region>,
          lb: List<LoopFrame>)
    requires Loose(ops, a, la, b, lb) && la.Cons? && (Slack(ops, la.head) > 0 ==> Depth(a) == la.head.at.bodiesLen)
    ensures Loose(ops, a, la.tail, b, lb.tail)
  {
    if la.tail.Cons? {
      var m, n := la.head.at.bodiesLen, lb.head.at.bodiesLen;
      var p, q := la.tail.head.at.bodiesLen, lb.tail.head.at.bodiesLen;
      TruncateDepth(a, m);
      TruncateDepth(b, n);
      NoNextJoin(a, m, p);
      NoNextJoin(b, n, q);
      TruncateTwice(a, m, p);
      TruncateTwice(b, n, q);
    }
  }

  /** Out of a loop entered inside the next script. */
  lemma LeaveInner(ops: seq<OpCode>, k: nat, a: List<Region>, la: List<LoopFrame>, b: List<Region>,
          lb: List<LoopFrame>, m: nat, n: nat)
    requires m <= Depth(a) && n <= Depth(b) && Depth(a) - m == Depth(b) - n && k <= Depth(a) && k <= Depth(b)
    requires Depth(a) - m < k && SameTop(a, b, k)
        && Apt(ops, k - (Depth(a) - m), Truncate(a, m), la, Truncate(b, n), lb)
    ensures Apt(ops, k, a, la, b, lb)
  {
    TruncateDepth(a, m);
    TruncateDepth(b, n);
    var p, q := la.head.at.bodiesLen, lb.head.at.bodiesLen;
    if p > Depth(a) - k {
      TruncateTwice(a, m, p);
      TruncateTwice(b, n, q);
    } else {
      NextAtTruncated(a, m, k - (Depth(a) - m));
      TruncateTwice(a, m, Depth(a) - k);
      TruncateTwice(b, n, Depth(b) - k);
    }
  }

  lemma LeaveApt(ops: seq<OpCode>, k: nat, a: List<Region>, la: List<LoopFrame>, b: List<Region>, lb: List<LoopFrame>)
    returns (j: nat)
    requires Apt(ops, k, a, la, b, lb) && la.Cons? && (Slack(ops, la.head) > 0 ==> Depth(a) == la.head.at.bodiesLen)
    ensures lb.Cons? && Apt(ops, j, a, la.tail, b, lb.tail)
  {
    if k == 0 {
      j := 0;
      LeaveLoose(ops, a, la, b, lb);
    } else if la.head.at.bodiesLen > Depth(a) - k {
      j := k;
      LeaveInner(ops, k, a, la.tail, b, lb.tail, la.head.at.bodiesLen, lb.head.at.bodiesLen);
    } else if la.tail.Nil? {
      j := 0;
      TailsNil(ops, Truncate(a, Depth(a) - k), la, Truncate(b, Depth(b) - k), lb);
    } else {
      j := k;
      LeaveOwner(ops, k, a, la, b, lb);
    }
  }

  lemma TailsNil(ops: seq<OpCode>, a: List<Region>, la: List<LoopFrame>, b: List<Region>, lb: List<LoopFrame>)
    requires Loose(ops, a, la, b, lb) && la.Cons? && la.tail.Nil?
    ensures lb.Cons? && lb.tail.Nil?
  {
  }

  /** Out of the loop whose next script is open. */
  lemma LeaveOwner(ops: seq<OpCode>, k: nat, a: List<Region>, la: List<LoopFrame>, b: List<Region>, lb: List<LoopFrame>)
    requires k > 0 && Apt(ops, k, a, la, b, lb) && la.Cons? && la.head.at.bodiesLen <= Depth(a) - k && la.tail.Cons?
    requires Slack(ops, la.head) > 0 ==> Depth(a) == la.head.at.bodiesLen
    ensures Apt(ops, k, a, la.tail, b, lb.tail)
  {
    hide Exec;
    var x, y := Truncate(a, Depth(a) - k), Truncate(b, Depth(b) - k);
    TruncateDepth(a, Depth(a) - k);
    TruncateDepth(b, Depth(b) - k);
    LeaveLoose(ops, x, la, y, lb);
    assert la.tail.head.at.bodiesLen <= Depth(x) by { EntriesFit(ops, x, la.tail, y, lb.tail); }
  }

  lemma EntriesFit(ops: seq<OpCode>, a: List<Region>, la: List<LoopFrame>, b: List<Region>, lb: List<LoopFrame>)
    requires Loose(ops, a, la, b, lb) && la.Cons?
    ensures la.head.at.bodiesLen <= Depth(a)
  {
  }

  // ── signals ──

  /** At every level both sides agree on whether a next script is open. */
  lemma FlagsAgree(ops: seq<OpCode>, k: nat, a: List<Region>, la: List<LoopFrame>, b: List<Region>, lb: List<LoopFrame>)
    requires Apt(ops, k, a, la, b, lb) && la.Cons?
    ensures lb.Cons? && NextAbove(a, la.head.at.bodiesLen) == NextAbove(b, lb.head.at.bodiesLen)
  {
    if k > 0 {
      var m, n := la.head.at.bodiesLen, lb.head.at.bodiesLen;
      if m > Depth(a) - k {
        SameTopLess(a, b, Depth(a) - m, k);
        SameTopNext(a, b, m, n);
      } else {
        NextAtAbove(a, k, m);
        NextAtSame(a, b, k);
        TruncateDepth(b, Depth(b) - k);
        NextAtAbove(b, k, n);
      }
    }
  }

  /** Back to the entry of the innermost loop, seen from outside it. */
  lemma CutInner(ops: seq<OpCode>, k: nat, a: List<Region>, la: List<LoopFrame>, b: List<Region>, lb: List<LoopFrame>)
    returns (j: nat)
    requires Apt(ops, k, a, la, b, lb) && la.Cons?
    ensures lb.Cons? && la.head.at.bodiesLen <= Depth(a) && lb.head.at.bodiesLen <= Depth(b)
    ensures Apt(ops, j, Truncate(a, la.head.at.bodiesLen), la.tail, Truncate(b, lb.head.at.bodiesLen), lb.tail)
  {
    hide Exec;
    var m, n := la.head.at.bodiesLen, lb.head.at.bodiesLen;
    TruncateDepth(a, m);
    TruncateDepth(b, n);
    if k == 0 {
      j := 0;
    } else if m > Depth(a) - k {
      j := k - (Depth(a) - m);
    } else {
      j := 0;
      TruncateDepth(a, Depth(a) - k);
      TruncateDepth(b, Depth(b) - k);
      TruncateTwice(a, Depth(a) - k, m);
      TruncateTwice(b, Depth(b) - k, n);
    }
  }

  /** And from inside. */
  lemma CutApt(ops: seq<OpCode>, k: nat, a: List<Region>, la: List<LoopFrame>, b: List<Region>, lb: List<LoopFrame>)
    returns (j: nat)
    requires Apt(ops, k, a, la, b, lb) && la.Cons?
    ensures lb.Cons?
    ensures var x, y := Truncate(a, la.head.at.bodiesLen), Truncate(b, lb.head.at.bodiesLen);
      Apt(ops, j, x, la.tail, y, lb.tail) && Apt(ops, j, x, la, y, lb)
  {
    hide Exec;
    j := CutInner(ops, k, a, la, b, lb);
    TruncateDepth(a, la.head.at.bodiesLen);
    TruncateDepth(b, lb.head.at.bodiesLen);
    EnterApt(ops, j, Truncate(a, la.head.at.bodiesLen), la.tail, Truncate(b, lb.head.at.bodiesLen), lb.tail, la.head,
        lb.head);
  }

  /** Where no next script is open, nothing needs to be the same. */
  lemma {:induction false} QuietApt(ops: seq<OpCode>, k: nat, a: List<Region>, la: List<LoopFrame>, b: List<Region>,
          lb: List<LoopFrame>)
    requires Apt(ops, k, a, la, b, lb) && NoNext(a, la)
    ensures k == 0
    decreases la
  {
    if k > 0 {
      var m, n := la.head.at.bodiesLen, lb.head.at.bodiesLen;
      if m > Depth(a) - k {
        QuietApt(ops, k - (Depth(a) - m), Truncate(a, m), la.tail, Truncate(b, n), lb.tail);
      } else {
        NextAtAbove(a, k, m);
      }
    }
  }

  // ── loop-closing superinstructions ──

  /** The fused side goes back to the loop's entry, the other stays. */
  lemma SwapLoose(ops: seq<OpCode>, a: List<Region>, la: List<LoopFrame>, b: List<Region>, lb: List<LoopFrame>)
    requires Loose(ops, a, la, b, lb) && la.Cons?
    ensures Loose(ops, Truncate(a, la.head.at.bodiesLen), la, b, lb)
  {
    var m := la.head.at.bodiesLen;
    TruncateDepth(a, m);
    TruncateTwice(a, m, m);
    NothingAbove(Truncate(a, m));
  }

  /** A pass of an iteration: the fused side opens its body's region. */
  lemma PassLoose(ops: seq<OpCode>, a: List<Region>, la: List<LoopFrame>, b: List<Region>, lb: List<LoopFrame>,
          r: Region)
    requires Loose(ops, a, la, b, lb) && la.Cons? && Slack(ops, la.head) == 1 && !r.Next?
    ensures Loose(ops, Cons(r, Truncate(a, la.head.at.bodiesLen)), la, b, lb)
  {
    var m := la.head.at.bodiesLen;
    TruncateDepth(a, m);
    TruncateTwice(a, m, m);
    NothingAbove(Truncate(a, m));
    SwapLoose(ops, a, la, b, lb);
  }
}

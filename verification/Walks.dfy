/** Runs followed instruction by instruction. */
module Walks {
  import opened Opcodes
  import opened Machine

  lemma NoStep(h: Host, u: Code, s: Run)
    ensures Steps(h, u, s, 0) == s
  {
    hide Step;
  }

  /** After `n` steps at `pc` in `d`; `op` there goes on to `t`. */
  lemma Takes(h: Host, u: Code, s: Run, n: nat, pc: nat, op: OpCode, d: State, t: Run)
    requires Steps(h, u, s, n) == Running(pc, d) && OpAt(u.ops, pc) == op && pc < |u.ops|
    requires After(pc, Exec(h, u.infos, op, d)) == t
    ensures Steps(h, u, s, n + 1) == t
  {
    hide Exec;
    StepsAdd(h, u, s, n, 1);
    assert Steps(h, u, Running(pc, d), 1) == Step(h, u, Running(pc, d));
  }

  /** The unit after its last instruction. */
  lemma Finishes(h: Host, u: Code, d: State)
    ensures Steps(h, u, Now(|u.ops|, d), 1) == Halted(Outcome.Value(Top(h, d.core), d.core))
  {
    hide Exec;
    assert Steps(h, u, Running(|u.ops|, d), 1) == Step(h, u, Running(|u.ops|, d));
  }

  /** Runs end in one way. */
  lemma OneEnd(h: Host, u: Code, s: Run, m: nat, n: nat)
    requires Steps(h, u, s, m).Halted? && Steps(h, u, s, n).Halted?
    ensures Steps(h, u, s, m) == Steps(h, u, s, n)
  {
    hide Step;
    if m <= n { StepsAdd(h, u, s, m, n - m); HaltedStays(h, u, Steps(h, u, s, m), n - m); }
    else { StepsAdd(h, u, s, n, m - n); HaltedStays(h, u, Steps(h, u, s, n), m - n); }
  }

  lemma EndsEarlier(h: Host, u: Code, s: Run, m: nat, n: nat)
    requires Steps(h, u, s, m).Halted? && m <= n
    ensures Steps(h, u, s, n).Halted?
  {
    hide Step;
    StepsAdd(h, u, s, m, n - m);
    HaltedStays(h, u, Steps(h, u, s, m), n - m);
  }

  /** The shapes of a unit with one plain foreach. */
  function Shapes(): seq<ForeachInfo> { [ForeachInfo(1, false, false)] }
}

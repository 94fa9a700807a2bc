/** Scripts whose literal `continue`s are compiled for the loop they belong to,
    whose foreach shapes are the ones in the unit's table, and whose integer
    literals are 64-bit words; and what else a theorem may ask of a script. */
module Fitting {
  import opened Opcodes
  import opened Arith
  import opened Machine
  import opened Negations
  import opened Syntax

  /** A `continue` compiled with flag `next` leaves exactly the loops whose next
      script it is in: none, or the innermost alone. */
  predicate Aimed(next: bool, ctx: List<bool>) {
    match ctx
    case Nil => true
    case Cons(inner, rest) => next == inner && (next && rest.Cons? ==> !rest.head)
  }

  predicate LitFits(lit: Lit) { lit.Int? ==> InI64(lit.n) }

  // ── shapes and literals ──

  predicate ShapedScript(infos: seq<ForeachInfo>, s: Script) {
    s.Then? ==> ShapedForm(infos, s.cmd.form) && ShapedScript(infos, s.rest)
  }

  predicate ShapedWord(infos: seq<ForeachInfo>, x: Word) {
    match x
    case Text(lit) => LitFits(lit)
    case Eval(lit) => LitFits(lit)
    case Sugar(lit) => LitFits(lit)
    case Cat(parts) => ShapedWords(infos, parts)
    case Bracket(s) => ShapedScript(infos, s)
    case _ => true
  }

  predicate ShapedWords(infos: seq<ForeachInfo>, ws: Words) {
    ws.More? ==> ShapedWord(infos, ws.w) && ShapedWords(infos, ws.rest)
  }

  predicate ShapedExpr(infos: seq<ForeachInfo>, e: Expr) {
    match e
    case Leaf(lit) => LitFits(lit)
    case Inner(s) => ShapedScript(infos, s)
    case Binary(_, l, r) => ShapedExpr(infos, l) && ShapedExpr(infos, r)
    case Unary(_, x) => ShapedExpr(infos, x)
    case _ => true
  }

  predicate ShapedTest(infos: seq<ForeachInfo>, t: Test) {
    match t case Inline(e) => ShapedExpr(infos, e) case Late(x) => ShapedWord(infos, x)
  }

  predicate ShapedArms(infos: seq<ForeachInfo>, a: Arms) {
    match a
    case NoElse => true
    case Else(body) => ShapedScript(infos, body)
    case Arm(t, body, rest) => ShapedTest(infos, t) && ShapedScript(infos, body) && ShapedArms(infos, rest)
  }

  predicate ShapedForm(infos: seq<ForeachInfo>, f: Form) {
    match f
    case Set(_, x) => ShapedWord(infos, x)
    case Extend(_, x) => ShapedWord(infos, x)
    case Calc(t) => ShapedTest(infos, t)
    case If(t, body, arms) => ShapedTest(infos, t) && ShapedScript(infos, body) && ShapedArms(infos, arms)
    case While(t, body) => ShapedTest(infos, t) && ShapedScript(infos, body)
    case For(start, t, nxt, body) =>
      ShapedScript(infos, start) && ShapedTest(infos, t) && ShapedScript(infos, body) && ShapedScript(infos, nxt)
    case Foreach(info, shape, data, body) =>
      && info < |infos| && infos[info] == shape && shape.groups == Count(data)
      && ShapedWords(infos, data) && ShapedScript(infos, body)
    case Give(x) => ShapedWord(infos, x)
    case Run(_, _, ws) => ShapedWords(infos, ws)
    case _ => true
  }

  // ── further demands ──

  /** `aimed`: every `continue` is compiled for the loop it belongs to; `flat`:
      no `for` or `foreach` runs inside a next script; `bits`: a doubled `!`
      stands over a 0/1 value or, unless `strict`, decides a branch. */
  datatype Plan = Plan(aimed: bool, flat: bool, bits: bool, strict: bool)

  predicate NoneIn(ctx: List<bool>) { ctx.Cons? ==> !ctx.head && NoneIn(ctx.tail) }

  predicate BitExpr(e: Expr) {
    match e
    case Leaf(lit) => LitBit(lit)
    case Binary(op, _, _) => IsCmp(op)
    case Unary(un, _) => un.Not?
    case _ => false
  }

  /** Every negation in `e` sees 0 or 1 or has a fate that makes it removable;
      `even` and `odd` are the fates of the value behind `e`. */
  predicate NegationsFit(e: Expr, even: Fate, odd: Fate) {
    match e
    case Binary(_, l, r) => NegationsFit(l, Never, Always) && NegationsFit(r, Never, Always)
    case Unary(un, x) =>
      if un.Not? then (BitExpr(x) || !odd.Never?) && NegationsFit(x, odd, even) else NegationsFit(x, Never, Always)
    case _ => true
  }

  predicate PlanScript(p: Plan, s: Script, next: bool, ctx: List<bool>) {
    s.Then? ==> PlanForm(p, s.cmd.form, next, ctx) && PlanScript(p, s.rest, next, ctx)
  }

  predicate PlanWord(p: Plan, x: Word, next: bool, ctx: List<bool>) {
    match x
    case Cat(parts) => PlanWords(p, parts, next, ctx)
    case Bracket(s) => PlanScript(p, s, next, ctx)
    case _ => true
  }

  predicate PlanWords(p: Plan, ws: Words, next: bool, ctx: List<bool>) {
    ws.More? ==> PlanWord(p, ws.w, next, ctx) && PlanWords(p, ws.rest, next, ctx)
  }

  predicate PlanExpr(p: Plan, e: Expr, next: bool, ctx: List<bool>) {
    match e
    case Inner(s) => PlanScript(p, s, next, ctx)
    case Binary(_, l, r) => PlanExpr(p, l, next, ctx) && PlanExpr(p, r, next, ctx)
    case Unary(_, x) => PlanExpr(p, x, next, ctx)
    case _ => true
  }

  predicate PlanTest(p: Plan, t: Test, next: bool, ctx: List<bool>) {
    match t
    case Inline(e) => PlanExpr(p, e, next, ctx)
    case Late(x) => PlanWord(p, x, next, ctx)
  }

  /** `even` is the fate of the test's value: a condition is read as a truth value. */
  predicate TestFits(p: Plan, t: Test, even: Fate) {
    p.bits && t.Inline? ==> NegationsFit(t.e, Reading(p.strict, even), Always)
  }

  predicate PlanArms(p: Plan, a: Arms, next: bool, ctx: List<bool>) {
    match a
    case NoElse => true
    case Else(body) => PlanScript(p, body, next, ctx)
    case Arm(t, body, rest) =>
        PlanTest(p, t, next, ctx) && TestFits(p, t, IfBoolean) && PlanScript(p, body, next, ctx)
        && PlanArms(p, rest, next, ctx)
  }

  predicate PlanForm(p: Plan, f: Form, next: bool, ctx: List<bool>) {
    var inside := Cons(false, ctx);
    match f
    case Set(_, x) => PlanWord(p, x, next, ctx)
    case Extend(_, x) => PlanWord(p, x, next, ctx)
    case Calc(t) => PlanTest(p, t, next, ctx) && TestFits(p, t, Never)
    case If(t, body, arms) =>
        PlanTest(p, t, next, ctx) && TestFits(p, t, IfBoolean) && PlanScript(p, body, next, ctx)
        && PlanArms(p, arms, next, ctx)
    case While(t, body) =>
        PlanTest(p, t, false, inside) && TestFits(p, t, IfBoolean) && PlanScript(p, body, false, inside)
    case For(start, t, nxt, body) =>
      && (p.flat ==> NoneIn(ctx)) && PlanScript(p, start, false, ctx)
      && PlanTest(p, t, false, inside) && TestFits(p, t, IfBoolean) && PlanScript(p, body, false, inside)
      && PlanScript(p, nxt, true, Cons(true, ctx))
    case Foreach(_, _, data, body) =>
        (p.flat ==> NoneIn(ctx)) && PlanWords(p, data, next, ctx) && PlanScript(p, body, next, inside)
    case Again => (p.aimed ==> Aimed(next, ctx)) && (p.flat && next ==> ctx.Cons? && ctx.head)
    case Give(x) => PlanWord(p, x, next, ctx)
    case Run(_, _, ws) => PlanWords(p, ws, next, ctx)
    case _ => true
  }

  const AIMED := Plan(true, false, false, false)
  const FLAT := Plan(false, true, false, false)
  const NEGATED := Plan(false, false, true, false)
  const BITS := Plan(false, false, true, true)

  // ── shaped and aimed ──

  predicate FitScript(infos: seq<ForeachInfo>, s: Script, next: bool, ctx: List<bool>) {
    ShapedScript(infos, s) && PlanScript(AIMED, s, next, ctx)
  }

  predicate FitWord(infos: seq<ForeachInfo>, x: Word, next: bool, ctx: List<bool>) {
    ShapedWord(infos, x) && PlanWord(AIMED, x, next, ctx)
  }

  predicate FitWords(infos: seq<ForeachInfo>, ws: Words, next: bool, ctx: List<bool>) {
    ShapedWords(infos, ws) && PlanWords(AIMED, ws, next, ctx)
  }

  predicate FitExpr(infos: seq<ForeachInfo>, e: Expr, next: bool, ctx: List<bool>) {
    ShapedExpr(infos, e) && PlanExpr(AIMED, e, next, ctx)
  }

  predicate FitTest(infos: seq<ForeachInfo>, t: Test, next: bool, ctx: List<bool>) {
    ShapedTest(infos, t) && PlanTest(AIMED, t, next, ctx)
  }

  predicate FitArms(infos: seq<ForeachInfo>, a: Arms, next: bool, ctx: List<bool>) {
    ShapedArms(infos, a) && PlanArms(AIMED, a, next, ctx)
  }

  predicate FitForm(infos: seq<ForeachInfo>, f: Form, next: bool, ctx: List<bool>) {
    ShapedForm(infos, f) && PlanForm(AIMED, f, next, ctx)
  }

  /** Every `continue` is compiled for its own loop. */
  predicate AimedScript(s: Script) { PlanScript(AIMED, s, false, Nil) }

  /** No `for` or `foreach` runs inside a next script. */
  predicate FlatScript(s: Script) { PlanScript(FLAT, s, false, Nil) }

  /** A doubled `!` stands over a 0/1 value or decides a branch. */
  predicate NegatedScript(s: Script) { PlanScript(NEGATED, s, false, Nil) }

  /** A doubled `!` stands over a 0/1 value, in conditions as elsewhere. */
  predicate BitScript(s: Script) { PlanScript(BITS, s, false, Nil) }

  // ── flat scripts are aimed ──

  /** In flat code the flag is that of the innermost loop; once set, no other is. */
  predicate FlatFlags(next: bool, ctx: List<bool>) {
    next == (ctx.Cons? && ctx.head) && (next ==> NoneIn(ctx.tail))
  }

  lemma {:induction false} FlatIsAimed(s: Script, next: bool, ctx: List<bool>)
    requires PlanScript(FLAT, s, next, ctx) && FlatFlags(next, ctx)
    ensures PlanScript(AIMED, s, next, ctx)
    decreases s
  {
    if s.Then? {
      FlatForm(s.cmd.form, next, ctx);
      FlatIsAimed(s.rest, next, ctx);
    }
  }

  lemma {:induction false} FlatWord(x: Word, next: bool, ctx: List<bool>)
    requires PlanWord(FLAT, x, next, ctx) && FlatFlags(next, ctx)
    ensures PlanWord(AIMED, x, next, ctx)
    decreases x
  {
    match x
    case Cat(parts) => FlatWords(parts, next, ctx);
    case Bracket(s) => FlatIsAimed(s, next, ctx);
    case _ =>
  }

  lemma {:induction false} FlatWords(ws: Words, next: bool, ctx: List<bool>)
    requires PlanWords(FLAT, ws, next, ctx) && FlatFlags(next, ctx)
    ensures PlanWords(AIMED, ws, next, ctx)
    decreases ws
  {
    if ws.More? {
      FlatWord(ws.w, next, ctx);
      FlatWords(ws.rest, next, ctx);
    }
  }

  lemma {:induction false} FlatExpr(e: Expr, next: bool, ctx: List<bool>)
    requires PlanExpr(FLAT, e, next, ctx) && FlatFlags(next, ctx)
    ensures PlanExpr(AIMED, e, next, ctx)
    decreases e
  {
    match e
    case Inner(s) => FlatIsAimed(s, next, ctx);
    case Binary(_, l, r) => FlatExpr(l, next, ctx); FlatExpr(r, next, ctx);
    case Unary(_, x) => FlatExpr(x, next, ctx);
    case _ =>
  }

  lemma {:induction false} FlatTest(t: Test, next: bool, ctx: List<bool>)
    requires PlanTest(FLAT, t, next, ctx) && FlatFlags(next, ctx)
    ensures PlanTest(AIMED, t, next, ctx)
    decreases t
  {
    match t
    case Inline(e) => FlatExpr(e, next, ctx);
    case Late(x) => FlatWord(x, next, ctx);
  }

  lemma {:induction false} FlatArms(a: Arms, next: bool, ctx: List<bool>)
    requires PlanArms(FLAT, a, next, ctx) && FlatFlags(next, ctx)
    ensures PlanArms(AIMED, a, next, ctx)
    decreases a
  {
    match a
    case NoElse =>
    case Else(body) => FlatIsAimed(body, next, ctx);
    case Arm(t, body, rest) =>
      FlatTest(t, next, ctx);
      FlatIsAimed(body, next, ctx);
      FlatArms(rest, next, ctx);
  }

  lemma {:induction false} FlatForm(f: Form, next: bool, ctx: List<bool>)
    requires PlanForm(FLAT, f, next, ctx) && FlatFlags(next, ctx)
    ensures PlanForm(AIMED, f, next, ctx)
    decreases f
  {
    var inside := Cons(false, ctx);
    match f
    case Set(_, x) => FlatWord(x, next, ctx);
    case Extend(_, x) => FlatWord(x, next, ctx);
    case Calc(t) => FlatTest(t, next, ctx);
    case If(t, body, arms) =>
      FlatTest(t, next, ctx);
      FlatIsAimed(body, next, ctx);
      FlatArms(arms, next, ctx);
    case While(t, body) =>
      FlatTest(t, false, inside);
      FlatIsAimed(body, false, inside);
    case For(start, t, nxt, body) =>
      FlatIsAimed(start, false, ctx);
      FlatTest(t, false, inside);
      FlatIsAimed(body, false, inside);
      FlatIsAimed(nxt, true, Cons(true, ctx));
    case Foreach(_, _, data, body) =>
      FlatWords(data, next, ctx);
      FlatIsAimed(body, next, inside);
    case Give(x) => FlatWord(x, next, ctx);
    case Run(_, _, ws) => FlatWords(ws, next, ctx);
    case _ =>
  }
}
